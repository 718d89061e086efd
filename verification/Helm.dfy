/** src/install_helm_charts.rs: set values, resources.toml as render_resources_toml prints it with Rust's Debug
    format, and the same file as the installer parses it back. The printer is modelled by its own loops, the
    parser on the subset of TOML that the printer emits; keys that do not survive printing are the subject of
    module HelmKeys. */
module Helm {
  import opened Prelude
  import opened Text
  import opened Patterns
  import opened Template
  import opened Staging
  import opened Toml

  // ── set values ───────────────────────────────────────────────────────────

  datatype SetError = NotFound(key: string) | StillShell(key: string)

  function SetText(values: map<string, ResolvedValue>): Cap -> string {
    (cap: Cap) => if cap.name in values && !values[cap.name].Shell? then TemplateStr(values[cap.name]) else ""
  }

  function SetErrors(values: map<string, ResolvedValue>, caps: seq<Cap>): seq<SetError> {
    if caps == [] then []
    else
      var k := caps[0].name;
      (if k !in values then [NotFound(k)] else if values[k].Shell? then [StillShell(k)] else [])
      + SetErrors(values, caps[1..])
  }

  function SubstituteSet(values: map<string, ResolvedValue>, raw: string): Result<string, seq<SetError>> {
    var errors := SetErrors(values, Captures(SetRef, raw));
    if errors != [] then Err(errors) else Ok(ReplaceAll(SetRef, SetText(values), raw))
  }

  // Text and value references without a filter.
  predicate FilterFree(toks: seq<Tok>) {
    forall i :: 0 <= i < |toks| ==> toks[i].Raw? || (toks[i].Val? && toks[i].filter.None?)
  }

  predicate RefersToShell(values: map<string, ResolvedValue>, toks: seq<Tok>) {
    exists i :: 0 <= i < |toks| && toks[i].Val? && toks[i].key in values && values[toks[i].key].Shell?
  }

  // A token whose substitution into a set value is refused.
  predicate Refused(values: map<string, ResolvedValue>, t: Tok) {
    t.Val? && (t.key !in values || values[t.key].Shell?)
  }

  lemma {:induction false} SetErrorsIff(values: map<string, ResolvedValue>, toks: seq<Tok>)
    requires FilterFree(toks)
    ensures SetErrors(values, OwnCaps(SetRef, toks)) == [] <==> forall i :: 0 <= i < |toks| ==> !Refused(values, toks[i])
  {
    if toks != [] {
      var t, rest := toks[0], toks[1..];
      SetErrorsIff(values, rest);
      assert forall i :: 0 < i < |toks| ==> toks[i] == rest[i - 1];
      if t.Val? {
        assert OwnCaps(SetRef, toks)[1..] == OwnCaps(SetRef, rest);
      } else {
        assert OwnCaps(SetRef, toks) == OwnCaps(SetRef, rest);
      }
    }
  }

  lemma {:induction false} RefusedIff(ctx: Context, toks: seq<Tok>)
    requires FilterFree(toks)
    ensures (forall i :: 0 <= i < |toks| ==> !Refused(ctx.values, toks[i]))
       <==> AllKnown(ctx, toks) && !RefersToShell(ctx.values, toks)
  {
  }

  lemma {:induction false} SetDenotes(ctx: Context, toks: seq<Tok>)
    requires FilterFree(toks) && AllKnown(ctx, toks) && !RefersToShell(ctx.values, toks)
    ensures Print(RewriteAll(SetRef, SetText(ctx.values), toks)) == Denote(ctx, toks)
  {
    if toks != [] {
      var rest := toks[1..];
      assert forall i :: 0 <= i < |rest| ==> rest[i] == toks[i + 1];
      SetDenotes(ctx, rest);
    }
  }

  /** On references without a filter a set value becomes what render_template makes of the same text; it is
      refused exactly when render_template refuses it or a shell value was left unresolved. */
  lemma {:induction false} SetAgrees(ctx: Context, toks: seq<Tok>)
    requires InertContext(ctx) && AllWellFormed(toks) && FilterFree(toks)
    ensures var (set_, whole) := (SubstituteSet(ctx.values, Print(toks)), RenderTemplate(ctx, Print(toks)));
      && (set_.Ok? <==> whole.Ok? && !RefersToShell(ctx.values, toks))
      && (set_.Ok? ==> set_.value == whole.value)
  {
    RenderIsSimultaneous(ctx, toks);
    PassOnTokens(SetRef, SetText(ctx.values), toks);
    SetErrorsIff(ctx.values, toks);
    RefusedIff(ctx, toks);
    if AllKnown(ctx, toks) && !RefersToShell(ctx.values, toks) {
      SetDenotes(ctx, toks);
    }
  }

  /** Filled at install time, a set value is the direct rendering with the secrets, and it is refused exactly
      when a value or a needed secret is missing. */
  lemma {:induction false} SetStagedIsDirect(ctx: Context, vault: map<string, string>, toks: seq<Tok>)
    requires Stageable(ctx, toks) && FilterFree(toks) && !RefersToShell(ctx.values, toks)
    ensures var planned := SubstituteSet(ctx.values, Print(toks));
      var installed := if planned.Ok? then SubstituteVault(planned.value, vault) else Err([]);
      && (installed.Ok? <==> AllKnown(ctx, toks) && SecretsPresent(ctx, vault, toks))
      && (installed.Ok? ==> installed.value == Denote(Opened(ctx, vault), toks))
  {
    SetAgrees(ctx, toks);
    StagedIsDirect(ctx, vault, toks);
    RenderIsSimultaneous(ctx, toks);
  }

  // ── resources ────────────────────────────────────────────────────────────

  // S is the set table: pairs in iteration order, or a map once parsed.
  datatype Resource<S> =
    | LocalChart(release: string, chart: string, set_: S, timeout: string, namespace: Option<string>)
    | RemoteChart(release: string, repoName: string, repoUrl: string, chart: string, valuesFile: Option<string>,
                  set_: S, timeout: string, namespace: Option<string>)

  type Pairs = seq<(string, string)>

  function Parts(path: string): seq<string>
    decreases |path|
  {
    var i := Find(path, '/');
    if i.None? then [path] else [path[..i.value]] + Parts(path[i.value + 1..])
  }

  function LastPart(parts: seq<string>): string {
    if parts == [] then ""
    else if parts[|parts| - 1] in ["", "."] then LastPart(parts[..|parts| - 1])
    else parts[|parts| - 1]
  }

  // Path::file_name, empty where there is none.
  function FileName(path: string): string {
    var last := LastPart(Parts(path));
    if last == ".." then "" else last
  }

  lemma {:induction false} PartsStep(head: string, rest: string)
    requires '/' !in head
    ensures Parts(head + "/" + rest) == [head] + Parts(rest)
  {
    var path := head + "/" + rest;
    FindAt(head, '/', rest);
    assert path[..|head|] == head && path[|head| + 1..] == rest;
  }

  lemma {:induction false} SplitDir(dir: string, name: string) returns (head: string, rest: string)
    requires '/' in dir
    ensures '/' !in head && |rest| < |dir|
    ensures dir + "/" + name == head + "/" + (rest + "/" + name)
  {
    var cut := SplitOnce(dir, '/').value;
    head, rest := cut.0, cut.1;
    assert dir == head + "/" + rest;
  }

  lemma {:induction false} LastOfParts(dir: string, name: string)
    requires '/' !in name
    ensures var parts := Parts(dir + "/" + name); parts != [] && parts[|parts| - 1] == name
    decreases |dir|
  {
    if '/' in dir {
      var head, rest := SplitDir(dir, name);
      PartsStep(head, rest + "/" + name);
      LastOfParts(rest, name);
    } else {
      PartsStep(dir, name);
      assert Find(name, '/').None?;
    }
  }

  /** The file name of a path is what follows its last separator, whatever stands before it. */
  lemma {:induction false} FileNameIsLast(dir: string, name: string)
    requires '/' !in name && name != "" && name != "." && name != ".."
    ensures FileName(dir + "/" + name) == name && FileName(name) == name
  {
    LastOfParts(dir, name);
    assert Find(name, '/').None?;
  }

  lemma {:induction false} Slashes(head: string, rest: string, last: string)
    ensures head + "/" + rest + "/" + last == head + "/" + (rest + "/" + last)
  {
  }

  lemma {:induction false} PartsSnoc(path: string, last: string)
    requires '/' !in last
    ensures Parts(path + "/" + last) == Parts(path) + [last]
    decreases |path|
  {
    if '/' in path {
      var cut := SplitOnce(path, '/').value;
      Slashes(cut.0, cut.1, last);
      PartsStep(cut.0, cut.1);
      PartsStep(cut.0, cut.1 + "/" + last);
      PartsSnoc(cut.1, last);
    } else {
      PartsStep(path, last);
      assert Find(path, '/').None? && Find(last, '/').None?;
    }
  }

  lemma {:induction false} LastSnoc(parts: seq<string>, last: string)
    ensures LastPart(parts + [last]) == if last == "" || last == "." then LastPart(parts) else last
  {
    assert (parts + [last])[..|parts|] == parts;
  }

  lemma {:induction false} LastOfPath(path: string, last: string)
    requires '/' !in last
    ensures FileName(path + "/" + last) == if last == "" || last == "." then FileName(path) else if last == ".." then "" else last
  {
    PartsSnoc(path, last);
    LastSnoc(Parts(path), last);
  }

  lemma {:induction false} LastAlone(last: string)
    requires '/' !in last
    ensures FileName(last) == if last == "" || last == "." || last == ".." then "" else last
  {
    assert Find(last, '/').None? && Parts(last) == [last];
    LastSnoc([], last);
    assert [] + [last] == [last];
  }

  /** A closing separator or a dot component changes no file name, and a path that ends in two dots or names nothing
      has none. */
  lemma {:induction false} FileNameSkips(path: string)
    ensures FileName(path + "/") == FileName(path) && FileName(path + "/" + ".") == FileName(path)
    ensures FileName(path + "/" + "..") == "" && FileName("..") == "" && FileName(".") == "" && FileName("") == ""
  {
    LastOfPath(path, "");
    assert path + "/" + "" == path + "/";
    LastOfPath(path, ".");
    LastOfPath(path, "..");
    LastAlone("");
    LastAlone(".");
    LastAlone("..");
  }

  function OptPair(name: string, value: Option<string>): Pairs {
    if value.Some? then [(name, value.value)] else []
  }

  function FileOf(path: Option<string>): Option<string> {
    if path.Some? then Some(FileName(path.value)) else None
  }

  // The plain fields in the order they are printed.
  function Fields<S>(r: Resource<S>): Pairs {
    match r
    case LocalChart(release, chart, _, timeout, namespace) =>
      [("type", "local_chart"), ("release", release), ("chart", chart), ("timeout", timeout)]
      + OptPair("namespace", namespace)
    case RemoteChart(release, repoName, repoUrl, chart, valuesFile, _, timeout, namespace) =>
      [("type", "remote_chart"), ("release", release), ("repo_name", repoName), ("repo_url", repoUrl), ("chart", chart),
       ("timeout", timeout)] + OptPair("namespace", namespace) + OptPair("values_file", FileOf(valuesFile))
  }

  // ── printing ─────────────────────────────────────────────────────────────

  function Join(lines: seq<string>): string {
    if lines == [] then "" else lines[0] + "\n" + Join(lines[1..])
  }

  function Assignment(st: Style, key: string, value: string): string {
    key + (" = " + DebugStr(st, value))
  }

  function FieldLines(st: Style, fields: Pairs): seq<string> {
    if fields == [] then [] else [Assignment(st, fields[0].0, fields[0].1)] + FieldLines(st, fields[1..])
  }

  function SetLine(st: Style, key: string, value: string): string {
    "set." + (QuoteKey(key) + (" = " + DebugStr(st, value)))
  }

  function SetLines(st: Style, pairs: Pairs): seq<string> {
    if pairs == [] then [] else [SetLine(st, pairs[0].0, pairs[0].1)] + SetLines(st, pairs[1..])
  }

  const HEADER: string := "[[resource]]"

  // One resource, its set values already substituted.
  function Block(st: Style, r: Resource<Pairs>): seq<string> {
    [HEADER] + (FieldLines(st, Fields(r)) + (SetLines(st, r.set_) + [""]))
  }

  // The lines that open and close a resource.
  lemma {:induction false} BlockOpens(st: Style, r: Resource<Pairs>)
    ensures var b := Block(st, r);
      && 2 <= |b| && b[0] == "[[resource]]" && b[|b| - 1] == ""
      && b[1] == "type = " + DebugStr(st, if r.LocalChart? then "local_chart" else "remote_chart")
  {
    assert Fields(r)[0].0 == "type";
    Assoc("type", " = ", DebugStr(st, Fields(r)[0].1));
    assert "type" + " = " == "type = ";
  }

  function Blocks(st: Style, rs: seq<Resource<Pairs>>): seq<string> {
    if rs == [] then [] else Block(st, rs[0]) + Blocks(st, rs[1..])
  }

  function SubstitutePairs(values: map<string, ResolvedValue>, pairs: Pairs): Result<Pairs, seq<SetError>> {
    if pairs == [] then Ok([]) else
      match SubstituteSet(values, pairs[0].1)
      case Err(e) => Err(e)
      case Ok(text) =>
        match SubstitutePairs(values, pairs[1..])
        case Err(e) => Err(e)
        case Ok(rest) => Ok([(pairs[0].0, text)] + rest)
  }

  // Every set value substituted, nothing else touched.
  function Substituted(values: map<string, ResolvedValue>, rs: seq<Resource<Pairs>>): Result<seq<Resource<Pairs>>, seq<SetError>> {
    if rs == [] then Ok([]) else
      match SubstitutePairs(values, rs[0].set_)
      case Err(e) => Err(e)
      case Ok(pairs) =>
        match Substituted(values, rs[1..])
        case Err(e) => Err(e)
        case Ok(rest) => Ok([rs[0].(set_ := pairs)] + rest)
  }

  // ── parsing ──────────────────────────────────────────────────────────────

  datatype Line = Nothing | Header | Assign(name: string, value: string) | SetEntry(key: string, value: string)

  function SkipBlanks(s: string): string {
    if s != "" && (s[0] == ' ' || s[0] == '\t') then SkipBlanks(s[1..]) else s
  }

  // What follows a key: an equals sign, a string, and nothing more.
  function ValueOf(s: string): Option<string> {
    var a := SkipBlanks(s);
    if !("=" <= a) then None else
      var v := BasicString(SkipBlanks(a[1..]));
      if v.Some? && SkipBlanks(v.value.rest) == "" then Some(v.value.value) else None
  }

  function LineOf(s: string): Option<Line> {
    if s == "" then Some(Nothing)
    else if s == HEADER then Some(Header)
    else
      var inSet := "set." <= s;
      var k := Key(if inSet then s[4..] else s);
      if k.None? then None else
        var v := ValueOf(k.value.rest);
        if v.None? then None
        else if inSet then Some(SetEntry(k.value.value, v.value))
        else Some(Assign(k.value.value, v.value))
  }

  datatype Table = Table(fields: map<string, string>, set_: map<string, string>)

  function Opt(t: Option<Table>): seq<Table> {
    if t.Some? then [t.value] else []
  }

  // Tables under [[resource]] in order; a key given twice is an error.
  function Tables(lines: seq<string>, done: seq<Table>, cur: Option<Table>): Option<seq<Table>> {
    if lines == [] then Some(done + Opt(cur)) else
      match LineOf(lines[0])
      case None => None
      case Some(Nothing) => Tables(lines[1..], done, cur)
      case Some(Header) => Tables(lines[1..], done + Opt(cur), Some(Table(map[], map[])))
      case Some(Assign(name, value)) =>
        if cur.None? || name in cur.value.fields then None
        else Tables(lines[1..], done, Some(cur.value.(fields := cur.value.fields[name := value])))
      case Some(SetEntry(key, value)) =>
        if cur.None? || key in cur.value.set_ then None
        else Tables(lines[1..], done, Some(cur.value.(set_ := cur.value.set_[key := value])))
  }

  function Field(t: Table, name: string): Option<string> {
    if name in t.fields then Some(t.fields[name]) else None
  }

  type Parsed = Resource<map<string, string>>

  // Deserialization by the type tag; timeout defaults to five minutes.
  function ResourceOf(t: Table): Option<Parsed> {
    var (release, chart) := (Field(t, "release"), Field(t, "chart"));
    var timeout := if "timeout" in t.fields then t.fields["timeout"] else "5m";
    if release.None? || chart.None? then None
    else if Field(t, "type") == Some("local_chart") then
      Some(LocalChart(release.value, chart.value, t.set_, timeout, Field(t, "namespace")))
    else if Field(t, "type") == Some("remote_chart") then
      var (name, url) := (Field(t, "repo_name"), Field(t, "repo_url"));
      if name.None? || url.None? then None
      else Some(RemoteChart(release.value, name.value, url.value, chart.value, Field(t, "values_file"), t.set_, timeout,
                            Field(t, "namespace")))
    else None
  }

  predicate Gives(t: Table, name: string, value: string) {
    name in t.fields && t.fields[name] == value
  }

  // An optional field: its value, or its absence.
  predicate Maybe(t: Table, name: string, value: Option<string>) {
    if value.Some? then Gives(t, name, value.value) else name !in t.fields
  }

  /** Which table is which resource: both kinds need type, release and chart, a remote chart its repository as well; a
      timeout that is not given is five minutes. */
  lemma {:induction false} TableMeans(t: Table)
    ensures match ResourceOf(t)
      case Some(LocalChart(release, chart, set_, timeout, namespace)) =>
        && Gives(t, "type", "local_chart") && Gives(t, "release", release) && Gives(t, "chart", chart) && set_ == t.set_
        && (Gives(t, "timeout", timeout) || ("timeout" !in t.fields && timeout == "5m")) && Maybe(t, "namespace", namespace)
      case Some(RemoteChart(release, repoName, repoUrl, chart, valuesFile, set_, timeout, namespace)) =>
        && Gives(t, "type", "remote_chart") && Gives(t, "release", release) && Gives(t, "chart", chart) && set_ == t.set_
        && Gives(t, "repo_name", repoName) && Gives(t, "repo_url", repoUrl) && Maybe(t, "values_file", valuesFile)
        && (Gives(t, "timeout", timeout) || ("timeout" !in t.fields && timeout == "5m")) && Maybe(t, "namespace", namespace)
      case None =>
        || "release" !in t.fields || "chart" !in t.fields
        || (!Gives(t, "type", "local_chart") && !Gives(t, "type", "remote_chart"))
        || (Gives(t, "type", "remote_chart") && ("repo_name" !in t.fields || "repo_url" !in t.fields))
  {
  }

  function ResourcesOf(ts: seq<Table>): Option<seq<Parsed>> {
    if ts == [] then Some([]) else
      var (first, rest) := (ResourceOf(ts[0]), ResourcesOf(ts[1..]));
      if first.None? || rest.None? then None else Some([first.value] + rest.value)
  }

  // The file as the installer reads it; without a table the list itself is missing.
  function ReadBack(text: string): Option<seq<Parsed>> {
    var ts := Tables(Terminated(text) + [Unterminated(text)], [], None);
    if ts.None? || ts.value == [] then None else ResourcesOf(ts.value)
  }

  // ── lines read back ──────────────────────────────────────────────────────

  lemma {:induction false} ValueReads(st: Style, value: string)
    requires Sensible(st)
    ensures ValueOf(" = " + DebugStr(st, value)) == if Tame(st, value) then Some(value) else None
  {
    var d := DebugStr(st, value);
    var s := " = " + d;
    assert s[1..] == "= " + d && ("= " + d)[1..] == " " + d && (" " + d)[1..] == d;
    assert SkipBlanks(s) == "= " + d;
    assert SkipBlanks(" " + d) == d by { assert d[0] == '"'; }
    StringReadsBack(st, value, "");
    assert d + "" == d;
  }

  predicate FieldName(name: string) {
    name != "" && forall i :: 0 <= i < |name| ==> 'a' <= name[i] <= 'z' || name[i] == '_'
  }

  lemma {:induction false} Bare(name: string)
    requires forall i :: 0 <= i < |name| ==> IsBare(name[i])
    ensures BareLen(name) == |name|
  {
    if name != "" {
      Bare(name[1..]);
    }
  }

  lemma {:induction false} FieldReads(st: Style, name: string, value: string)
    requires Sensible(st) && FieldName(name)
    ensures LineOf(Assignment(st, name, value)) == if Tame(st, value) then Some(Assign(name, value)) else None
  {
    var rest := " = " + DebugStr(st, value);
    var s := Assignment(st, name, value);
    assert s == name + rest;
    assert s[0] == name[0] && IsBare(name[0]) && s != HEADER;
    assert !("set." <= s) by {
      if 3 < |name| { assert s[3] == name[3]; } else { assert s[3] == rest[3 - |name|]; }
    }
    Bare(name);
    BareKey(name, rest);
    ValueReads(st, value);
  }

  lemma {:induction false} SetReads(st: Style, key: string, value: string)
    requires Sensible(st) && KeyOk(key)
    ensures LineOf(SetLine(st, key, value)) == if Tame(st, value) then Some(SetEntry(key, value)) else None
  {
    var s := SetLine(st, key, value);
    assert s[..4] == "set." && s[4..] == QuoteKey(key) + (" = " + DebugStr(st, value));
    assert s[0] == 's' && s != HEADER;
    KeyReadsBack(key, DebugStr(st, value));
    ValueReads(st, value);
  }

  predicate AllTame(st: Style, pairs: Pairs) {
    forall i :: 0 <= i < |pairs| ==> Tame(st, pairs[i].1)
  }

  predicate Distinct(pairs: Pairs) {
    forall i, j :: 0 <= i < j < |pairs| ==> pairs[i].0 != pairs[j].0
  }

  function AsMap(pairs: Pairs): map<string, string> {
    if pairs == [] then map[] else map[pairs[0].0 := pairs[0].1] + AsMap(pairs[1..])
  }

  predicate NewIn(pairs: Pairs, m: map<string, string>) {
    forall i :: 0 <= i < |pairs| ==> pairs[i].0 !in m
  }

  lemma {:induction false} TailOf(st: Style, pairs: Pairs, m: map<string, string>)
    requires pairs != [] && Distinct(pairs) && NewIn(pairs, m)
    ensures Distinct(pairs[1..]) && NewIn(pairs[1..], m[pairs[0].0 := pairs[0].1])
    ensures AllTame(st, pairs) <==> Tame(st, pairs[0].1) && AllTame(st, pairs[1..])
    ensures m[pairs[0].0 := pairs[0].1] + AsMap(pairs[1..]) == m + AsMap(pairs)
  {
    assert forall i :: 0 <= i < |pairs| - 1 ==> pairs[1..][i] == pairs[i + 1];
    assert forall i :: 0 < i < |pairs| ==> pairs[i] == pairs[1..][i - 1];
  }

  lemma {:induction false} FieldStep(lines: seq<string>, name: string, value: string, ok: bool, done: seq<Table>, t: Table)
    requires lines != [] && name !in t.fields && LineOf(lines[0]) == if ok then Some(Assign(name, value)) else None
    ensures Tables(lines, done, Some(t)) ==
      if ok then Tables(lines[1..], done, Some(t.(fields := t.fields[name := value]))) else None
  {
  }

  lemma {:induction false} FieldsRead(st: Style, fields: Pairs, rest: seq<string>, done: seq<Table>, t: Table)
    requires Sensible(st) && Distinct(fields) && NewIn(fields, t.fields)
    requires forall i :: 0 <= i < |fields| ==> FieldName(fields[i].0)
    ensures Tables(FieldLines(st, fields) + rest, done, Some(t)) ==
      if AllTame(st, fields) then Tables(rest, done, Some(t.(fields := t.fields + AsMap(fields)))) else None
  {
    if fields == [] {
      assert FieldLines(st, fields) + rest == rest && t.fields + map[] == t.fields;
    } else {
      var (name, value) := fields[0];
      var lines := FieldLines(st, fields) + rest;
      var next := t.(fields := t.fields[name := value]);
      assert lines[0] == Assignment(st, name, value) && lines[1..] == FieldLines(st, fields[1..]) + rest;
      FieldReads(st, name, value);
      TailOf(st, fields, t.fields);
      FieldStep(lines, name, value, Tame(st, value), done, t);
      if Tame(st, value) {
        FieldsRead(st, fields[1..], rest, done, next);
      }
    }
  }

  lemma {:induction false} SetStep(lines: seq<string>, key: string, value: string, ok: bool, done: seq<Table>, t: Table)
    requires lines != [] && key !in t.set_ && LineOf(lines[0]) == if ok then Some(SetEntry(key, value)) else None
    ensures Tables(lines, done, Some(t)) ==
      if ok then Tables(lines[1..], done, Some(t.(set_ := t.set_[key := value]))) else None
  {
  }

  lemma {:induction false} SetLinesCons(st: Style, pairs: Pairs, rest: seq<string>)
    requires pairs != []
    ensures var lines := SetLines(st, pairs) + rest;
      lines[0] == SetLine(st, pairs[0].0, pairs[0].1) && lines[1..] == SetLines(st, pairs[1..]) + rest
  {
    ConsDrop(SetLine(st, pairs[0].0, pairs[0].1), SetLines(st, pairs[1..]), rest);
  }

  lemma {:induction false} ConsDrop<T>(x: T, xs: seq<T>, rest: seq<T>)
    ensures ([x] + xs + rest)[0] == x && ([x] + xs + rest)[1..] == xs + rest
  {
  }

  predicate KeysOk(pairs: Pairs) {
    forall i :: 0 <= i < |pairs| ==> KeyOk(pairs[i].0)
  }

  lemma {:induction false} SetsRead(st: Style, pairs: Pairs, rest: seq<string>, done: seq<Table>, t: Table)
    requires Sensible(st) && Distinct(pairs) && NewIn(pairs, t.set_) && KeysOk(pairs)
    ensures Tables(SetLines(st, pairs) + rest, done, Some(t)) ==
      if AllTame(st, pairs) then Tables(rest, done, Some(t.(set_ := t.set_ + AsMap(pairs)))) else None
  {
    if pairs == [] {
      assert SetLines(st, pairs) + rest == rest && t.set_ + map[] == t.set_;
    } else {
      var (key, value) := pairs[0];
      SetReads(st, key, value);
      SetLinesCons(st, pairs, rest);
      SetStep(SetLines(st, pairs) + rest, key, value, Tame(st, value), done, t);
      TailOf(st, pairs, t.set_);
      if Tame(st, value) {
        SetsRead(st, pairs[1..], rest, done, t.(set_ := t.set_[key := value]));
      }
    }
  }

  // ── resources read back ──────────────────────────────────────────────────

  // All texts of a resource are printable, and its set keys survive printing.
  predicate TameResource(st: Style, r: Resource<Pairs>) {
    AllTame(st, Fields(r)) && AllTame(st, r.set_)
  }

  predicate Keyed(r: Resource<Pairs>) {
    Distinct(r.set_) && KeysOk(r.set_)
  }

  function TableOf(r: Resource<Pairs>): Table {
    Table(AsMap(Fields(r)), AsMap(r.set_))
  }

  // The names in the order printed.
  function Names<S>(r: Resource<S>): seq<string> {
    (if r.LocalChart? then ["type", "release", "chart", "timeout"]
     else ["type", "release", "repo_name", "repo_url", "chart", "timeout"])
    + (if r.namespace.Some? then ["namespace"] else [])
    + (if r.RemoteChart? && r.valuesFile.Some? then ["values_file"] else [])
  }

  lemma {:induction false} NamesFit(r: Resource<Pairs>)
    ensures |Fields(r)| == |Names(r)| && forall i :: 0 <= i < |Names(r)| ==> Fields(r)[i].0 == Names(r)[i]
  {
  }

  const NAMES: seq<string> :=
    ["type", "release", "repo_name", "repo_url", "chart", "timeout", "namespace", "values_file"]

  lemma {:induction false} NamesKnown(r: Resource<Pairs>, i: nat)
    requires i < |Names(r)|
    ensures Names(r)[i] in NAMES
  {
  }

  lemma {:induction false} KnownAreBare(name: string)
    requires name in NAMES
    ensures FieldName(name)
  {
  }

  lemma {:induction false} NamesDiffer(r: Resource<Pairs>, i: nat, j: nat)
    requires i < j < |Names(r)|
    ensures Names(r)[i] != Names(r)[j]
  {
  }

  lemma {:induction false} FieldNames(r: Resource<Pairs>)
    ensures Distinct(Fields(r)) && forall i :: 0 <= i < |Fields(r)| ==> FieldName(Fields(r)[i].0)
  {
    NamesFit(r);
    forall i, j | 0 <= i < j < |Fields(r)| ensures Fields(r)[i].0 != Fields(r)[j].0 { NamesDiffer(r, i, j); }
    forall i | 0 <= i < |Fields(r)| ensures FieldName(Fields(r)[i].0) {
      NamesKnown(r, i);
      KnownAreBare(Names(r)[i]);
    }
  }

  lemma {:induction false} HeaderStep(rest: seq<string>, done: seq<Table>, cur: Option<Table>)
    ensures Tables([HEADER] + rest, done, cur) == Tables(rest, done + Opt(cur), Some(Table(map[], map[])))
  {
    assert ([HEADER] + rest)[1..] == rest;
  }

  lemma {:induction false} BlankStep(rest: seq<string>, done: seq<Table>, cur: Option<Table>)
    ensures Tables([""] + rest, done, cur) == Tables(rest, done, cur)
  {
    assert ([""] + rest)[1..] == rest;
  }

  lemma {:induction false} BlockSplits(st: Style, r: Resource<Pairs>, rest: seq<string>)
    ensures Block(st, r) + rest
         == [HEADER] + (FieldLines(st, Fields(r)) + (SetLines(st, r.set_) + ([""] + rest)))
  {
  }

  lemma {:induction false} BlockReads(st: Style, r: Resource<Pairs>, rest: seq<string>, done: seq<Table>, cur: Option<Table>)
    requires Sensible(st) && Keyed(r)
    ensures Tables(Block(st, r) + rest, done, cur) ==
      if TameResource(st, r) then Tables(rest, done + Opt(cur), Some(TableOf(r))) else None
  {
    var done' := done + Opt(cur);
    var sets := SetLines(st, r.set_) + ([""] + rest);
    var t0 := Table(map[], map[]);
    var t1 := Table(AsMap(Fields(r)), map[]);
    BlockSplits(st, r, rest);
    HeaderStep(FieldLines(st, Fields(r)) + sets, done, cur);
    FieldNames(r);
    FieldsRead(st, Fields(r), sets, done', t0);
    assert map[] + AsMap(Fields(r)) == AsMap(Fields(r)) && map[] + AsMap(r.set_) == AsMap(r.set_);
    SetsRead(st, r.set_, [""] + rest, done', t1);
    BlankStep(rest, done', Some(TableOf(r)));
  }

  predicate AllTameResources(st: Style, rs: seq<Resource<Pairs>>) {
    forall i :: 0 <= i < |rs| ==> TameResource(st, rs[i])
  }

  predicate AllKeyed(rs: seq<Resource<Pairs>>) {
    forall i :: 0 <= i < |rs| ==> Keyed(rs[i])
  }

  function TablesOf(rs: seq<Resource<Pairs>>): seq<Table> {
    if rs == [] then [] else [TableOf(rs[0])] + TablesOf(rs[1..])
  }

  lemma {:induction false} TameTail(st: Style, rs: seq<Resource<Pairs>>)
    requires rs != []
    ensures AllTameResources(st, rs) <==> TameResource(st, rs[0]) && AllTameResources(st, rs[1..])
  {
    assert forall i :: 0 < i < |rs| ==> rs[i] == rs[1..][i - 1];
    assert forall i :: 0 <= i < |rs| - 1 ==> rs[1..][i] == rs[i + 1];
  }

  lemma {:induction false} BlocksCons(st: Style, rs: seq<Resource<Pairs>>)
    requires rs != []
    ensures Blocks(st, rs) + [""] == Block(st, rs[0]) + (Blocks(st, rs[1..]) + [""])
  {
  }

  lemma {:induction false} Regroup<T>(xs: seq<T>, x: T, rest: seq<T>)
    ensures xs + [x] + rest == xs + ([x] + rest)
  {
  }

  lemma {:induction false} NoBlocks(st: Style, done: seq<Table>, cur: Option<Table>)
    ensures Tables(Blocks(st, []) + [""], done, cur) == Some(done + Opt(cur) + TablesOf([]))
  {
    assert Blocks(st, []) + [""] == [""] + [];
    BlankStep([], done, cur);
    assert done + Opt(cur) + [] == done + Opt(cur);
  }

  lemma {:induction false} BlocksRead(st: Style, rs: seq<Resource<Pairs>>, done: seq<Table>, cur: Option<Table>)
    requires Sensible(st) && AllKeyed(rs)
    ensures Tables(Blocks(st, rs) + [""], done, cur) ==
      if AllTameResources(st, rs) then Some(done + Opt(cur) + TablesOf(rs)) else None
  {
    if rs == [] {
      NoBlocks(st, done, cur);
    } else {
      BlocksCons(st, rs);
      BlockReads(st, rs[0], Blocks(st, rs[1..]) + [""], done, cur);
      TameTail(st, rs);
      if TameResource(st, rs[0]) {
        BlocksRead(st, rs[1..], done + Opt(cur), Some(TableOf(rs[0])));
        Regroup(done + Opt(cur), TableOf(rs[0]), TablesOf(rs[1..]));
      }
    }
  }

  // The resource as the installer should see it.
  function Expected(r: Resource<Pairs>): Parsed {
    match r
    case LocalChart(release, chart, set_, timeout, namespace) => LocalChart(release, chart, AsMap(set_), timeout, namespace)
    case RemoteChart(release, repoName, repoUrl, chart, valuesFile, set_, timeout, namespace) =>
      RemoteChart(release, repoName, repoUrl, chart, FileOf(valuesFile), AsMap(set_), timeout, namespace)
  }

  function ExpectedAll(rs: seq<Resource<Pairs>>): seq<Parsed> {
    if rs == [] then [] else [Expected(rs[0])] + ExpectedAll(rs[1..])
  }

  lemma {:induction false} AsMapAt(pairs: Pairs, i: nat)
    requires Distinct(pairs) && i < |pairs|
    ensures pairs[i].0 in AsMap(pairs) && AsMap(pairs)[pairs[i].0] == pairs[i].1
  {
    var rest := pairs[1..];
    assert forall j :: 0 < j < |pairs| ==> pairs[j] == rest[j - 1];
    if i == 0 {
      AsMapKeys(rest, pairs[0].0);
    } else {
      AsMapAt(rest, i - 1);
    }
  }

  lemma {:induction false} AsMapKeys(pairs: Pairs, name: string)
    requires forall i :: 0 <= i < |pairs| ==> pairs[i].0 != name
    ensures name !in AsMap(pairs)
  {
    if pairs != [] {
      AsMapKeys(pairs[1..], name);
    }
  }

  lemma {:induction false} FieldAt(r: Resource<Pairs>, i: nat)
    requires i < |Fields(r)|
    ensures Field(TableOf(r), Fields(r)[i].0) == Some(Fields(r)[i].1)
  {
    FieldNames(r);
    AsMapAt(Fields(r), i);
  }

  lemma {:induction false} FieldAbsent(r: Resource<Pairs>, name: string)
    requires forall i :: 0 <= i < |Fields(r)| ==> Fields(r)[i].0 != name
    ensures Field(TableOf(r), name) == None
  {
    AsMapKeys(Fields(r), name);
  }

  lemma {:induction false} LocalReads(r: Resource<Pairs>)
    requires r.LocalChart?
    ensures ResourceOf(TableOf(r)) == Some(Expected(r))
  {
    FieldAt(r, 0);
    FieldAt(r, 1);
    FieldAt(r, 2);
    FieldAt(r, 3);
    if r.namespace.Some? {
      FieldAt(r, 4);
    } else {
      FieldAbsent(r, "namespace");
    }
  }

  lemma {:induction false} RemoteReads(r: Resource<Pairs>)
    requires r.RemoteChart?
    ensures ResourceOf(TableOf(r)) == Some(Expected(r))
  {
    FieldAt(r, 0);
    FieldAt(r, 1);
    FieldAt(r, 2);
    FieldAt(r, 3);
    FieldAt(r, 4);
    FieldAt(r, 5);
    OptionalReads(r);
    assert Fields(r)[0] == ("type", "remote_chart") && "remote_chart" != "local_chart";
  }

  lemma {:induction false} OptionalReads(r: Resource<Pairs>)
    requires r.RemoteChart?
    ensures Field(TableOf(r), "namespace") == r.namespace
    ensures Field(TableOf(r), "values_file") == FileOf(r.valuesFile)
  {
    if r.namespace.Some? {
      FieldAt(r, 6);
    } else {
      FieldAbsent(r, "namespace");
    }
    if r.valuesFile.Some? {
      FieldAt(r, if r.namespace.Some? then 7 else 6);
    } else {
      FieldAbsent(r, "values_file");
    }
  }

  lemma {:induction false} TablesRead(rs: seq<Resource<Pairs>>)
    ensures ResourcesOf(TablesOf(rs)) == Some(ExpectedAll(rs))
  {
    if rs != [] {
      if rs[0].LocalChart? { LocalReads(rs[0]); } else { RemoteReads(rs[0]); }
      TablesRead(rs[1..]);
      assert TablesOf(rs)[1..] == TablesOf(rs[1..]);
    }
  }

  // ── the text as lines ────────────────────────────────────────────────────

  predicate OneLiners(lines: seq<string>) {
    forall i :: 0 <= i < |lines| ==> '\n' !in lines[i]
  }

  lemma {:induction false} JoinSplits(lines: seq<string>)
    requires OneLiners(lines)
    ensures Terminated(Join(lines)) == lines && Unterminated(Join(lines)) == ""
  {
    if lines != [] {
      JoinSplits(lines[1..]);
      TerminatedCons(lines[0], Join(lines[1..]));
    }
  }

  // Debug's own conventions: hexadecimal digits between the braces.
  ghost predicate Plain(st: Style) {
    Sensible(st) && forall c, i | 0 <= i < |st.hex(c)| :: HexDigit(st.hex(c)[i]).Some?
  }

  lemma {:induction false} HexIsOneLine(st: Style, c: char)
    requires Plain(st)
    ensures '\n' !in st.hex(c) && '\'' !in st.hex(c) && '"' !in st.hex(c)
  {
    assert HexDigit('\n').None? && HexDigit('\'').None? && HexDigit('"').None?;
  }

  lemma {:induction false} PlainIsOneLine(st: Style)
    requires Plain(st)
    ensures forall c :: '\n' !in st.hex(c)
  {
    forall c ensures '\n' !in st.hex(c) { HexIsOneLine(st, c); }
  }

  lemma {:induction false} FieldsAreLines(st: Style, fields: Pairs)
    requires Plain(st) && forall i :: 0 <= i < |fields| ==> FieldName(fields[i].0)
    ensures OneLiners(FieldLines(st, fields))
  {
    if fields != [] {
      PlainIsOneLine(st);
      OneLine(st, fields[0].1);
      assert '\n' !in Assignment(st, fields[0].0, fields[0].1);
      FieldsAreLines(st, fields[1..]);
    }
  }

  lemma {:induction false} KeyIsLine(k: string)
    requires KeyOk(k)
    ensures '\n' !in QuoteKey(k)
  {
    assert Control('\n') && !IsBare('\n');
  }

  lemma {:induction false} SetsAreLines(st: Style, pairs: Pairs)
    requires Plain(st) && KeysOk(pairs)
    ensures OneLiners(SetLines(st, pairs))
  {
    if pairs != [] {
      PlainIsOneLine(st);
      OneLine(st, pairs[0].1);
      KeyIsLine(pairs[0].0);
      assert '\n' !in SetLine(st, pairs[0].0, pairs[0].1);
      SetsAreLines(st, pairs[1..]);
    }
  }

  lemma {:induction false} OneLinersAppend(a: seq<string>, b: seq<string>)
    requires OneLiners(a) && OneLiners(b)
    ensures OneLiners(a + b)
  {
  }

  lemma {:induction false} BlockIsLines(st: Style, r: Resource<Pairs>)
    requires Plain(st) && Keyed(r)
    ensures OneLiners(Block(st, r))
  {
    FieldNames(r);
    FieldsAreLines(st, Fields(r));
    SetsAreLines(st, r.set_);
    OneLinersAppend(SetLines(st, r.set_), [""]);
    OneLinersAppend(FieldLines(st, Fields(r)), SetLines(st, r.set_) + [""]);
    OneLinersAppend([HEADER], FieldLines(st, Fields(r)) + (SetLines(st, r.set_) + [""]));
  }

  lemma {:induction false} BlocksAreLines(st: Style, rs: seq<Resource<Pairs>>)
    requires Plain(st) && AllKeyed(rs)
    ensures OneLiners(Blocks(st, rs))
  {
    if rs != [] {
      BlockIsLines(st, rs[0]);
      BlocksAreLines(st, rs[1..]);
      OneLinersAppend(Block(st, rs[0]), Blocks(st, rs[1..]));
    }
  }

  /** The printed file parses back into the same resources, the values file reduced to its name, exactly when
      there is a resource and every text consists of printable characters, tabs and line breaks. */
  lemma {:induction false} FileReadsBack(st: Style, rs: seq<Resource<Pairs>>)
    requires Plain(st) && AllKeyed(rs)
    ensures ReadBack(Join(Blocks(st, rs)))
         == if rs != [] && AllTameResources(st, rs) then Some(ExpectedAll(rs)) else None
  {
    BlocksAreLines(st, rs);
    JoinSplits(Blocks(st, rs));
    BlocksRead(st, rs, [], None);
    TablesRead(rs);
    assert [] + Opt(None) + TablesOf(rs) == TablesOf(rs);
  }

  // ── the printer's loops ──────────────────────────────────────────────────

  function BlockText(st: Style, values: map<string, ResolvedValue>, r: Resource<Pairs>): Result<string, seq<SetError>> {
    match SubstitutePairs(values, r.set_)
    case Err(e) => Err(e)
    case Ok(pairs) => Ok(Join(Block(st, r.(set_ := pairs))))
  }

  // out is what was printed before r.
  function Behind<E>(out: string, r: Result<string, E>): Result<string, E> {
    if r.Err? then r else Ok(out + r.value)
  }

  function FileText(st: Style, values: map<string, ResolvedValue>, rs: seq<Resource<Pairs>>): Result<string, seq<SetError>> {
    if rs == [] then Ok("") else
      match BlockText(st, values, rs[0])
      case Err(e) => Err(e)
      case Ok(text) => Behind(text, FileText(st, values, rs[1..]))
  }

  lemma {:induction false} JoinAppend(a: seq<string>, b: seq<string>)
    ensures Join(a + b) == Join(a) + Join(b)
  {
    if a == [] {
      assert a + b == b && "" + Join(b) == Join(b);
    } else {
      assert (a + b)[1..] == a[1..] + b;
      JoinAppend(a[1..], b);
      assert a[0] + "\n" + (Join(a[1..]) + Join(b)) == a[0] + "\n" + Join(a[1..]) + Join(b);
    }
  }

  lemma {:induction false} JoinOne(line: string)
    ensures Join([line]) == line + "\n"
  {
    assert [line][1..] == [] && line + "\n" + "" == line + "\n";
  }

  /** Printing is printing the file with every set value substituted. */
  lemma {:induction false} FileTextIs(st: Style, values: map<string, ResolvedValue>, rs: seq<Resource<Pairs>>)
    ensures var sub := Substituted(values, rs);
      FileText(st, values, rs) == if sub.Err? then Err(sub.error) else Ok(Join(Blocks(st, sub.value)))
  {
    if rs != [] {
      FileTextIs(st, values, rs[1..]);
      var (pairs, rest) := (SubstitutePairs(values, rs[0].set_), Substituted(values, rs[1..]));
      if pairs.Ok? && rest.Ok? {
        var first := rs[0].(set_ := pairs.value);
        JoinAppend(Block(st, first), Blocks(st, rest.value));
        assert ([first] + rest.value)[1..] == rest.value;
      }
    }
  }

  // The set lines of one resource, printed behind out.
  function SetBlock(st: Style, values: map<string, ResolvedValue>, pairs: Pairs): Result<string, seq<SetError>> {
    match SubstitutePairs(values, pairs)
    case Err(e) => Err(e)
    case Ok(done) => Ok(Join(SetLines(st, done)))
  }

  lemma {:induction false} SetTextStep(st: Style, values: map<string, ResolvedValue>, pairs: Pairs, out: string)
    requires pairs != []
    ensures var text := SubstituteSet(values, pairs[0].1);
      Behind(out, SetBlock(st, values, pairs)) ==
        if text.Err? then Err(text.error)
        else Behind(out + (SetLine(st, pairs[0].0, text.value) + "\n"), SetBlock(st, values, pairs[1..]))
  {
    var text := SubstituteSet(values, pairs[0].1);
    var rest := SubstitutePairs(values, pairs[1..]);
    if text.Ok? && rest.Ok? {
      var head := (pairs[0].0, text.value);
      assert ([head] + rest.value)[1..] == rest.value;
      Assoc(out, SetLine(st, head.0, head.1) + "\n", Join(SetLines(st, rest.value)));
    }
  }

  method PrintSet(st: Style, values: map<string, ResolvedValue>, pairs: Pairs, before: string)
    returns (r: Result<string, seq<SetError>>)
    ensures r == Behind(before, SetBlock(st, values, pairs))
  {
    var out := before;
    for i := 0 to |pairs|
      invariant Behind(before, SetBlock(st, values, pairs)) == Behind(out, SetBlock(st, values, pairs[i..]))
    {
      var (k, v) := pairs[i];
      SetTextStep(st, values, pairs[i..], out);
      assert pairs[i..][1..] == pairs[i + 1..];
      var rendered := SubstituteSet(values, v);
      if rendered.Err? { return Err(rendered.error); }
      out := out + (SetLine(st, k, rendered.value) + "\n");
    }
    assert pairs[|pairs|..] == [] && out + "" == out;
    r := Ok(out);
  }

  lemma {:induction false} JoinFrame(head: seq<string>, lines: seq<string>)
    ensures Join(head + (lines + [""])) == Join(head) + Join(lines) + "\n"
  {
    JoinAppend(head, lines + [""]);
    JoinAppend(lines, [""]);
    JoinOne("");
    assert "" + "\n" == "\n";
    Assoc(Join(head), Join(lines), "\n");
  }

  lemma {:induction false} AssocLines(a: seq<string>, b: seq<string>, c: seq<string>)
    ensures a + (b + c) == a + b + c
  {
  }

  lemma {:induction false} BlockParts(st: Style, values: map<string, ResolvedValue>, r: Resource<Pairs>)
    ensures var sets := SetBlock(st, values, r.set_);
      BlockText(st, values, r) ==
        if sets.Err? then Err(sets.error)
        else Ok(Join([HEADER] + FieldLines(st, Fields(r))) + sets.value + "\n")
  {
    var done := SubstitutePairs(values, r.set_);
    if done.Ok? {
      var head, lines := [HEADER] + FieldLines(st, Fields(r)), SetLines(st, done.value);
      assert Fields(r.(set_ := done.value)) == Fields(r);
      AssocLines([HEADER], FieldLines(st, Fields(r)), lines + [""]);
      JoinFrame(head, lines);
    }
  }

  method PrintResource(st: Style, values: map<string, ResolvedValue>, r: Resource<Pairs>, before: string)
    returns (out: Result<string, seq<SetError>>)
    ensures out == Behind(before, BlockText(st, values, r))
  {
    var fields := Fields(r);
    var head := HEADER + "\n";
    JoinOne(HEADER);
    for i := 0 to |fields|
      invariant Join([HEADER] + FieldLines(st, fields)) == head + Join(FieldLines(st, fields[i..]))
    {
      if i == 0 { JoinAppend([HEADER], FieldLines(st, fields)); }
      var rest := Join(FieldLines(st, fields[i + 1..]));
      assert fields[i..][1..] == fields[i + 1..];
      Assoc(head, Assignment(st, fields[i].0, fields[i].1) + "\n", rest);
      head := head + (Assignment(st, fields[i].0, fields[i].1) + "\n");
    }
    assert fields[|fields|..] == [] && head + "" == head;
    BlockParts(st, values, r);
    out := PrintSet(st, values, r.set_, before + head);
    if out.Ok? {
      var sets := SetBlock(st, values, r.set_).value;
      Assoc(before, head, sets);
      Assoc(before, head + sets, "\n");
      out := Ok(out.value + "\n");
    }
  }

  lemma {:induction false} BehindNothing<E>(r: Result<string, E>)
    ensures Behind("", r) == r
  {
    if r.Ok? { assert "" + r.value == r.value; }
  }

  lemma {:induction false} FileTextStep(st: Style, values: map<string, ResolvedValue>, rs: seq<Resource<Pairs>>, out: string)
    requires rs != []
    ensures Behind(out, FileText(st, values, rs)) ==
      var text := BlockText(st, values, rs[0]);
      if text.Err? then Err(text.error) else Behind(out + text.value, FileText(st, values, rs[1..]))
  {
    var text := BlockText(st, values, rs[0]);
    var rest := FileText(st, values, rs[1..]);
    if text.Ok? && rest.Ok? {
      Assoc(out, text.value, rest.value);
    }
  }

  /** render_resources_toml. */
  method RenderResourcesToml(st: Style, values: map<string, ResolvedValue>, rs: seq<Resource<Pairs>>)
    returns (r: Result<string, seq<SetError>>)
    ensures r == FileText(st, values, rs)
  {
    var out := "";
    BehindNothing(FileText(st, values, rs));
    assert rs[0..] == rs;
    for i := 0 to |rs|
      invariant FileText(st, values, rs) == Behind(out, FileText(st, values, rs[i..]))
    {
      FileTextStep(st, values, rs[i..], out);
      assert rs[i..][1..] == rs[i + 1..];
      var next := PrintResource(st, values, rs[i], out);
      if next.Err? { return Err(next.error); }
      out := next.value;
    }
    assert rs[|rs|..] == [] && out + "" == out;
    r := Ok(out);
  }

  lemma {:induction false} SubstitutedPair(values: map<string, ResolvedValue>, pairs: Pairs)
    ensures var sub := SubstitutePairs(values, pairs); sub.Ok? ==>
      |sub.value| == |pairs| &&
      forall i :: 0 <= i < |pairs| ==> sub.value[i].0 == pairs[i].0 && SubstituteSet(values, pairs[i].1) == Ok(sub.value[i].1)
  {
    if pairs != [] {
      SubstitutedPair(values, pairs[1..]);
    }
  }

  // Everything but the set values is left exactly as it was.
  predicate OnlySetsDiffer(values: map<string, ResolvedValue>, r: Resource<Pairs>, sub: Resource<Pairs>) {
    && sub == r.(set_ := sub.set_) && |sub.set_| == |r.set_|
    && forall i :: 0 <= i < |r.set_| ==> sub.set_[i].0 == r.set_[i].0 && SubstituteSet(values, r.set_[i].1) == Ok(sub.set_[i].1)
  }

  lemma {:induction false} SubstitutedKeeps(values: map<string, ResolvedValue>, rs: seq<Resource<Pairs>>)
    ensures var sub := Substituted(values, rs); sub.Ok? ==>
      |sub.value| == |rs| && forall i :: 0 <= i < |rs| ==> OnlySetsDiffer(values, rs[i], sub.value[i])
  {
    if rs != [] {
      SubstitutedPair(values, rs[0].set_);
      SubstitutedKeeps(values, rs[1..]);
    }
  }

  // A path in directories or without any ends in this name.
  ghost predicate EndsIn(path: string, name: string) {
    '/' !in name && name != "" && name != "." && name != ".." && (path == name || exists dir :: path == dir + "/" + name)
  }

  // The set table holds these pairs and no others.
  predicate Tabled(pairs: Pairs, m: map<string, string>) {
    && (forall i :: 0 <= i < |pairs| ==> pairs[i].0 in m && m[pairs[i].0] == pairs[i].1)
    && (forall k :: k in m ==> exists i :: 0 <= i < |pairs| && pairs[i].0 == k)
  }

  lemma {:induction false} KeysAreTabled(pairs: Pairs, k: string)
    requires k in AsMap(pairs)
    ensures exists i :: 0 <= i < |pairs| && pairs[i].0 == k
  {
    if k != pairs[0].0 {
      KeysAreTabled(pairs[1..], k);
      var i :| 0 <= i < |pairs[1..]| && pairs[1..][i].0 == k;
      assert pairs[i + 1] == pairs[1..][i];
    }
  }

  /** What the installer should read for a resource: every field as it is, the values file by its last path component,
      and exactly the pairs of the set table. */
  lemma {:induction false} ExpectedKeeps(r: Resource<Pairs>, name: string)
    requires Distinct(r.set_)
    ensures var e := Expected(r);
      && Tabled(r.set_, e.set_) && e.release == r.release && e.chart == r.chart && e.timeout == r.timeout && e.namespace == r.namespace
      && (r.LocalChart? <==> e.LocalChart?)
      && (r.RemoteChart? ==> e.repoName == r.repoName && e.repoUrl == r.repoUrl && (e.valuesFile.Some? <==> r.valuesFile.Some?))
      && (r.RemoteChart? && r.valuesFile.Some? && EndsIn(r.valuesFile.value, name) ==> e.valuesFile == Some(name))
  {
    forall i | 0 <= i < |r.set_| ensures r.set_[i].0 in AsMap(r.set_) && AsMap(r.set_)[r.set_[i].0] == r.set_[i].1 {
      AsMapAt(r.set_, i);
    }
    forall k | k in AsMap(r.set_) ensures exists i :: 0 <= i < |r.set_| && r.set_[i].0 == k {
      KeysAreTabled(r.set_, k);
    }
    if r.RemoteChart? && r.valuesFile.Some? && EndsIn(r.valuesFile.value, name) {
      FileNameIsLast("", name);
      if dir :| r.valuesFile.value == dir + "/" + name {
        FileNameIsLast(dir, name);
      }
    }
  }

  /** From plan to install: when rendering succeeds, what the installer reads is every resource with its set
      values substituted and its values file reduced to a file name, and nothing else changed; it reads nothing
      at all exactly when the file has no resource or holds an unprintable text. */
  lemma {:induction false} PlanThenInstall(st: Style, values: map<string, ResolvedValue>, rs: seq<Resource<Pairs>>)
    requires Plain(st) && AllKeyed(rs) && FileText(st, values, rs).Ok?
    ensures var sub := Substituted(values, rs);
      && sub.Ok? && |sub.value| == |rs| && (forall i :: 0 <= i < |rs| ==> OnlySetsDiffer(values, rs[i], sub.value[i]))
      && ReadBack(FileText(st, values, rs).value)
         == if rs != [] && AllTameResources(st, sub.value) then Some(ExpectedAll(sub.value)) else None
  {
    FileTextIs(st, values, rs);
    SubstitutedKeeps(values, rs);
    var sub := Substituted(values, rs).value;
    forall i | 0 <= i < |sub| ensures Keyed(sub[i]) {
      assert Keyed(rs[i]);
      assert forall j :: 0 <= j < |sub[i].set_| ==> sub[i].set_[j].0 == rs[i].set_[j].0;
    }
    FileReadsBack(st, sub);
  }
}
