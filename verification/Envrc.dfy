/** The .envrc writer of entrypoint.sh and the two readers, in src/rpc.rs and src/run_dry_run.rs. */
module Envrc {
  import opened Prelude
  import opened Text
  import opened Patterns

  datatype Var = Var(name: string, value: string)

  const EXPORT: string := "export "

  const SKIP_VARS: seq<string> := [
    "REMOTE_SCRIPT", "REMOTE_CAPABILITY", "REMOTE_CLEANUP", "EXTERNAL_EXECUTOR_URL",
    "GINGER_AUTH_PATH", "HOME", "PATH", "PWD", "HOSTNAME", "done"
  ]

  // ── the writer ───────────────────────────────────────────────────────────

  // ${line%%=*} and ${line#*=}: a line without '=' is its own key and value.
  function KeyOf(line: string): string {
    var i := Find(line, '=');
    if i.None? then line else line[..i.value]
  }

  function ValueOf(line: string): string {
    var i := Find(line, '=');
    if i.None? then line else line[i.value + 1..]
  }

  predicate IsName(key: string) {
    key != "" && forall i :: 0 <= i < |key| ==> IsWord(key[i])
  }

  predicate Exportable(key: string) {
    IsName(key) && !("KUBERNETES_" <= key) && !("TEKTON_" <= key) && key !in SKIP_VARS
  }

  // sed "s/'/'\\''/g"
  function Escape(value: string): string {
    if value == "" then ""
    else (if value[0] == '\'' then "'\\''" else [value[0]]) + Escape(value[1..])
  }

  function PrintVar(v: Var): string {
    EXPORT + v.name + "='" + Escape(v.value) + "'"
  }

  function PrintVars(vars: seq<Var>): string {
    if vars == [] then "" else PrintVar(vars[0]) + "\n" + PrintVars(vars[1..])
  }

  function Forwarded(line: string): Option<Var> {
    if Exportable(KeyOf(line)) then Some(Var(KeyOf(line), ValueOf(line))) else None
  }

  function AddTo(vars: seq<Var>, v: Option<Var>): seq<Var> {
    if v.Some? then vars + [v.value] else vars
  }

  // The variables found in the first n lines.
  function CollectUpTo(found: seq<Option<Var>>, n: nat): seq<Var>
    requires n <= |found|
  {
    if n == 0 then [] else AddTo(CollectUpTo(found, n - 1), found[n - 1])
  }

  function Collect(found: seq<Option<Var>>): seq<Var> {
    CollectUpTo(found, |found|)
  }

  function ForwardedAll(lines: seq<string>): (r: seq<Option<Var>>)
    ensures |r| == |lines|
  {
    if lines == [] then [] else [Forwarded(lines[0])] + ForwardedAll(lines[1..])
  }

  lemma {:induction false} ForwardedAllAt(lines: seq<string>, i: nat)
    requires i < |lines|
    ensures ForwardedAll(lines)[i] == Forwarded(lines[i])
  {
    if i != 0 {
      ForwardedAllAt(lines[1..], i - 1);
    }
  }

  function Exported(lines: seq<string>): seq<Var> {
    Collect(ForwardedAll(lines))
  }

  lemma {:induction false} PrintVarsSnoc(vars: seq<Var>, v: Var)
    ensures PrintVars(vars + [v]) == PrintVars(vars) + (PrintVar(v) + "\n")
  {
    if vars == [] {
      assert vars + [v] == [v];
    } else {
      assert (vars + [v])[1..] == vars[1..] + [v];
      PrintVarsSnoc(vars[1..], v);
      Assoc(PrintVar(vars[0]) + "\n", PrintVars(vars[1..]), PrintVar(v) + "\n");
    }
  }

  // The filters at the head of the loop body.
  method ForwardLine(line: string) returns (v: Option<Var>)
    ensures v == Forwarded(line)
  {
    var key, value := KeyOf(line), ValueOf(line);
    if !IsName(key) { return None; }
    if "KUBERNETES_" <= key { return None; }
    if "TEKTON_" <= key { return None; }
    var skip := false;
    for i := 0 to |SKIP_VARS|
      invariant !skip && key !in SKIP_VARS[..i]
    {
      if key == SKIP_VARS[i] {
        skip := true;
        break;
      }
    }
    return if skip then None else Some(Var(key, value));
  }

  // The body of the loop: the file after one more line of env.
  method AppendLine(lines: seq<string>, n: nat, before: string) returns (envrc: string)
    requires n < |lines| && before == PrintVars(CollectUpTo(ForwardedAll(lines), n))
    ensures envrc == PrintVars(CollectUpTo(ForwardedAll(lines), n + 1))
  {
    envrc := before;
    ForwardedAllAt(lines, n);
    var v := ForwardLine(lines[n]);
    if v.Some? {
      PrintVarsSnoc(CollectUpTo(ForwardedAll(lines), n), v.value);
      envrc := envrc + (PrintVar(v.value) + "\n");
    }
  }

  /** The loop over the output of env. */
  method WriteEnvrc(lines: seq<string>) returns (envrc: string)
    ensures envrc == PrintVars(Exported(lines))
  {
    envrc := "";
    for n := 0 to |lines|
      invariant envrc == PrintVars(CollectUpTo(ForwardedAll(lines), n))
    {
      envrc := AppendLine(lines, n, envrc);
    }
  }

  // ── the reader of src/rpc.rs ─────────────────────────────────────────────

  predicate Quoted(value: string, q: char) {
    2 <= |value| && value[0] == q && value[|value| - 1] == q
  }

  function Unquote(value: string): string {
    if Quoted(value, '"') || Quoted(value, '\'') then value[1..|value| - 1] else value
  }

  // What follows export: NAME=VALUE.
  function ReadPair(rest: string): Option<Var> {
    var pair := SplitOnce(Trim(rest), '=');
    if pair.None? || Trim(pair.value.0) == "" then None
    else Some(Var(Trim(pair.value.0), Unquote(Trim(pair.value.1))))
  }

  function EntryOf(raw: string): Option<Var> {
    var line := Trim(raw);
    if line == "" || line[0] == '#' || !(EXPORT <= line) then None
    else ReadPair(line[|EXPORT|..])
  }

  function EntriesOf(lines: seq<string>): (r: seq<Option<Var>>)
    ensures |r| == |lines|
  {
    if lines == [] then [] else [EntryOf(lines[0])] + EntriesOf(lines[1..])
  }

  lemma {:induction false} EntriesOfAt(lines: seq<string>, i: nat)
    requires i < |lines|
    ensures EntriesOf(lines)[i] == EntryOf(lines[i])
  {
    if i != 0 {
      EntriesOfAt(lines[1..], i - 1);
    }
  }

  function Entries(lines: seq<string>): seq<Var> {
    Collect(EntriesOf(lines))
  }

  // The body of the loop below; None is its continue.
  method ReadLine(raw: string) returns (v: Option<Var>)
    ensures v == EntryOf(raw)
  {
    var line := Trim(raw);
    if line == "" || line[0] == '#' { return None; }
    var stripped := StripPrefix(line, EXPORT);
    if stripped.None? { return None; }
    var pair := SplitOnce(Trim(stripped.value), '=');
    if pair.None? { return None; }
    var name := Trim(pair.value.0);
    if name == "" { return None; }
    var value := Trim(pair.value.1);
    if Quoted(value, '"') || Quoted(value, '\'') {
      value := value[1..|value| - 1];
    }
    return Some(Var(name, value));
  }

  /** rpc::parse_envrc after the file has been read. */
  method ParseEnvrc(contents: string) returns (vars: seq<Var>)
    ensures vars == Entries(Lines(contents))
  {
    var lines := Lines(contents);
    ghost var found := EntriesOf(lines);
    vars := [];
    for n := 0 to |lines|
      invariant vars == CollectUpTo(found, n)
    {
      EntriesOfAt(lines, n);
      var v := ReadLine(lines[n]);
      if v.Some? {
        vars := vars + [v.value];
      }
    }
  }

  // ── reading back what was written ────────────────────────────────────────

  predicate Writable(v: Var) {
    IsName(v.name) && '\n' !in v.value
  }

  function AsRead(vars: seq<Var>): (r: seq<Var>)
    ensures |r| == |vars|
    ensures forall i :: 0 <= i < |r| ==> r[i] == Var(vars[i].name, Escape(vars[i].value))
  {
    if vars == [] then [] else [Var(vars[0].name, Escape(vars[0].value))] + AsRead(vars[1..])
  }

  lemma {:induction false} EscapeKeepsLines(value: string)
    requires '\n' !in value
    ensures '\n' !in Escape(value)
  {
    if value != "" {
      EscapeKeepsLines(value[1..]);
    }
  }

  lemma {:induction false} EscapeGrows(value: string)
    ensures |Escape(value)| >= |value|
    ensures Escape(value) == value <==> '\'' !in value
  {
    if value != "" {
      EscapeGrows(value[1..]);
      if value[0] == '\'' {
        assert |Escape(value)| > |value|;
      } else {
        assert Escape(value)[1..] == Escape(value[1..]);
      }
    }
  }

  lemma {:induction false} UnquoteQuoted(inner: string)
    ensures Unquote("'" + inner + "'") == inner
  {
    var value := "'" + inner + "'";
    assert value[1..|value| - 1] == inner;
  }

  lemma {:induction false} ReadPairOf(name: string, inner: string)
    requires IsName(name)
    ensures ReadPair(name + "='" + inner + "'") == Some(Var(name, inner))
  {
    var value := "'" + inner + "'";
    var rest := name + ['='] + value;
    assert name + "='" + inner + "'" == rest;
    NameIsNoSpace(name);
    assert rest[0] == name[0] && rest[|rest| - 1] == '\'';
    TrimNone(rest);
    SplitOnceAt(name, '=', value);
    TrimNone(name);
    TrimNone(value);
    UnquoteQuoted(inner);
  }

  lemma {:induction false} ReadAssignment(name: string, inner: string)
    requires IsName(name)
    ensures EntryOf(EXPORT + name + "='" + inner + "'") == Some(Var(name, inner))
  {
    var rest := name + "='" + inner + "'";
    var line := EXPORT + name + "='" + inner + "'";
    assert line == EXPORT + rest;
    assert line[0] == 'e' && line[|line| - 1] == '\'';
    TrimNone(line);
    assert line[|EXPORT|..] == rest;
    ReadPairOf(name, inner);
  }

  lemma {:induction false} NameIsNoSpace(name: string)
    requires IsName(name)
    ensures '=' !in name && !IsSpace(name[0]) && !IsSpace(name[|name| - 1])
  {
    assert IsWord(name[0]) && IsWord(name[|name| - 1]);
  }

  function PrintedLines(vars: seq<Var>): (r: seq<string>)
    ensures |r| == |vars|
    ensures forall i :: 0 <= i < |r| ==> r[i] == PrintVar(vars[i])
  {
    if vars == [] then [] else [PrintVar(vars[0])] + PrintedLines(vars[1..])
  }

  predicate AllWritable(vars: seq<Var>) {
    forall i :: 0 <= i < |vars| ==> Writable(vars[i])
  }

  lemma {:induction false} LineOfPrint(v: Var, rest: string)
    requires Writable(v)
    ensures Terminated(PrintVar(v) + "\n" + rest) == [PrintVar(v)] + Terminated(rest)
    ensures Unterminated(PrintVar(v) + "\n" + rest) == Unterminated(rest)
    ensures StripCr(PrintVar(v)) == PrintVar(v)
  {
    EscapeKeepsLines(v.value);
    assert '\n' !in v.name;
    TerminatedCons(PrintVar(v), rest);
  }

  lemma {:induction false} LinesOfPrint(vars: seq<Var>)
    requires AllWritable(vars)
    ensures StripCrAll(Terminated(PrintVars(vars))) == PrintedLines(vars)
    ensures Unterminated(PrintVars(vars)) == ""
  {
    if vars != [] {
      LinesOfPrint(vars[1..]);
      LineOfPrint(vars[0], PrintVars(vars[1..]));
      assert ([PrintVar(vars[0])] + Terminated(PrintVars(vars[1..])))[1..] == Terminated(PrintVars(vars[1..]));
    }
  }

  lemma {:induction false} CollectAll(found: seq<Option<Var>>, vars: seq<Var>, n: nat)
    requires n <= |found| == |vars|
    requires forall i :: 0 <= i < |vars| ==> found[i] == Some(vars[i])
    ensures CollectUpTo(found, n) == vars[..n]
  {
    if n != 0 {
      CollectAll(found, vars, n - 1);
      assert vars[..n] == vars[..n - 1] + [vars[n - 1]];
    }
  }

  /** Whatever list of variables is printed, the reader gives back the same names in the same
      order with the escaped values: it removes the outer quotes and undoes no escape. */
  lemma {:induction false} ReadBack(vars: seq<Var>)
    requires AllWritable(vars)
    ensures Entries(Lines(PrintVars(vars))) == AsRead(vars)
  {
    LinesOfPrint(vars);
    assert Lines(PrintVars(vars)) == PrintedLines(vars);
    forall i | 0 <= i < |vars| ensures EntriesOf(PrintedLines(vars))[i] == Some(AsRead(vars)[i]) {
      EntriesOfAt(PrintedLines(vars), i);
      ReadAssignment(vars[i].name, Escape(vars[i].value));
    }
    CollectAll(EntriesOf(PrintedLines(vars)), AsRead(vars), |vars|);
  }

  /** So the round trip gives the list back exactly when no value holds a single quote. */
  lemma {:induction false} RoundTrip(vars: seq<Var>)
    requires AllWritable(vars)
    ensures Entries(Lines(PrintVars(vars))) == vars
      <==> forall i :: 0 <= i < |vars| ==> '\'' !in vars[i].value
  {
    ReadBack(vars);
    forall i | 0 <= i < |vars| ensures AsRead(vars)[i] == vars[i] <==> '\'' !in vars[i].value {
      EscapeGrows(vars[i].value);
    }
    if forall i :: 0 <= i < |vars| ==> '\'' !in vars[i].value {
      assert forall i :: 0 <= i < |vars| ==> AsRead(vars)[i] == vars[i];
    }
  }

  lemma {:induction false} CollectWritable(found: seq<Option<Var>>, n: nat)
    requires n <= |found|
    requires forall i :: 0 <= i < |found| && found[i].Some? ==> Writable(found[i].value)
    ensures AllWritable(CollectUpTo(found, n))
  {
    if n != 0 {
      CollectWritable(found, n - 1);
    }
  }

  lemma {:induction false} ValueOnLine(line: string)
    requires '\n' !in line
    ensures '\n' !in ValueOf(line)
  {
  }

  /** The two programs together: what the runner forwards is what env printed, minus the
      skipped variables, exactly when no forwarded value holds a single quote. */
  lemma {:induction false} ForwardedEnv(lines: seq<string>)
    requires forall i :: 0 <= i < |lines| ==> '\n' !in lines[i]
    ensures Entries(Lines(PrintVars(Exported(lines)))) == Exported(lines)
      <==> forall i :: 0 <= i < |Exported(lines)| ==> '\'' !in Exported(lines)[i].value
  {
    forall i | 0 <= i < |lines| && ForwardedAll(lines)[i].Some? ensures Writable(ForwardedAll(lines)[i].value) {
      ForwardedAllAt(lines, i);
      ValueOnLine(lines[i]);
    }
    CollectWritable(ForwardedAll(lines), |lines|);
    RoundTrip(Exported(lines));
  }

  // ── the reader of src/run_dry_run.rs ─────────────────────────────────────

  function ReplaceStr(s: string, pat: string, replacement: string): string
    requires pat != ""
    decreases |s|
  {
    if s == "" then ""
    else if pat <= s then replacement + ReplaceStr(s[|pat|..], pat, replacement)
    else [s[0]] + ReplaceStr(s[1..], pat, replacement)
  }

  function ExpandHome(s: string, home: string): string {
    ReplaceStr(ReplaceStr(s, "${HOME}", home), "$HOME", home)
  }

  function StripBoth(value: string, q: char): Option<string> {
    if value == "" || value[0] != q then None
    else
      var inner := value[1..];
      if inner == "" || inner[|inner| - 1] != q then None else Some(inner[..|inner| - 1])
  }

  function StripQuotes(value: string): string {
    var d := StripBoth(value, '"');
    if d.Some? then d.value else
      var s := StripBoth(value, '\'');
      if s.Some? then s.value else value
  }

  function AssignmentOf(raw: string, home: string): Option<(string, string)> {
    var line := Trim(raw);
    if line == "" || line[0] == '#' then None else
      var stripped := StripPrefix(line, EXPORT);
      var pair := SplitOnce(if stripped.Some? then stripped.value else line, '=');
      if pair.None? then None
      else Some((Trim(pair.value.0), ExpandHome(StripQuotes(Trim(pair.value.1)), home)))
  }

  function Assign(vars: map<string, string>, a: Option<(string, string)>): map<string, string> {
    if a.Some? then vars[a.value.0 := a.value.1] else vars
  }

  function AssignUpTo(found: seq<Option<(string, string)>>, n: nat): map<string, string>
    requires n <= |found|
  {
    if n == 0 then map[] else Assign(AssignUpTo(found, n - 1), found[n - 1])
  }

  function AssignmentsOf(lines: seq<string>, home: string): (r: seq<Option<(string, string)>>)
    ensures |r| == |lines|
  {
    if lines == [] then [] else [AssignmentOf(lines[0], home)] + AssignmentsOf(lines[1..], home)
  }

  lemma {:induction false} AssignmentsOfAt(lines: seq<string>, home: string, i: nat)
    requires i < |lines|
    ensures AssignmentsOf(lines, home)[i] == AssignmentOf(lines[i], home)
  {
    if i != 0 {
      AssignmentsOfAt(lines[1..], home, i - 1);
    }
  }

  function Assignments(lines: seq<string>, home: string): map<string, string> {
    AssignUpTo(AssignmentsOf(lines, home), |lines|)
  }

  // The body of the loop below.
  method ReadAssign(lines: seq<string>, n: nat, home: string) returns (a: Option<(string, string)>)
    requires n < |lines|
    ensures a == AssignmentsOf(lines, home)[n]
  {
    AssignmentsOfAt(lines, home, n);
    var line := Trim(lines[n]);
    if line == "" || line[0] == '#' { return None; }
    var stripped := StripPrefix(line, EXPORT);
    var pair := SplitOnce(if stripped.Some? then stripped.value else line, '=');
    if pair.None? { return None; }
    var key, value := Trim(pair.value.0), StripQuotes(Trim(pair.value.1));
    return Some((key, ExpandHome(value, home)));
  }

  /** run_dry_run::parse_envrc. */
  method ParseAssignments(content: string, home: string) returns (vars: map<string, string>)
    ensures vars == Assignments(Lines(content), home)
  {
    var lines := Lines(content);
    ghost var found := AssignmentsOf(lines, home);
    vars := map[];
    for n := 0 to |lines|
      invariant vars == AssignUpTo(found, n)
    {
      var a := ReadAssign(lines, n, home);
      if a.Some? {
        vars := vars[a.value.0 := a.value.1];
      }
    }
  }

  // ── the two readers against each other ───────────────────────────────────

  function LastWins(vars: seq<Var>): map<string, string> {
    if vars == [] then map[]
    else LastWins(vars[..|vars| - 1])[vars[|vars| - 1].name := vars[|vars| - 1].value]
  }

  // A line that assigns nothing, or assigns to a non-empty name with export.
  predicate ExportOnly(raw: string) {
    var line := Trim(raw);
    || line == "" || line[0] == '#'
    || (!(EXPORT <= line) && '=' !in line)
    || (EXPORT <= line && (
          var pair := SplitOnce(line[|EXPORT|..], '=');
          pair.None? || Trim(pair.value.0) != ""))
  }

  predicate SameResult(v: Option<Var>, a: Option<(string, string)>) {
    if v.None? then a.None? else a == Some((v.value.name, v.value.value))
  }

  predicate SameReading(raw: string, home: string) {
    SameResult(EntryOf(raw), AssignmentOf(raw, home))
  }

  predicate Unexpanded(raw: string, home: string) {
    var v := EntryOf(raw);
    v.Some? ==> ExpandHome(v.value.value, home) == v.value.value
  }

  lemma {:induction false} UnquoteIsStrip(value: string)
    ensures Unquote(value) == StripQuotes(value)
  {
  }

  lemma {:induction false} NothingToTrim(t: string)
    requires t == "" || !IsSpace(t[0])
    ensures TrimStart(t) == t
  {
  }

  lemma {:induction false} TrimStartOnce(s: string)
    ensures TrimStart(TrimStart(s)) == TrimStart(s)
  {
    NothingToTrim(TrimStart(s));
  }

  lemma {:induction false} TrimStartBefore(a: string, c: char, b: string)
    requires !IsSpace(c)
    ensures TrimStart(a + [c] + b) == TrimStart(a) + [c] + b
  {
    if a != "" && IsSpace(a[0]) {
      assert (a + [c] + b)[1..] == a[1..] + [c] + b;
      TrimStartBefore(a[1..], c, b);
    } else if a == "" {
      assert a + [c] + b == [c] + b;
    }
  }

  lemma {:induction false} TrimStartKeepsEnd(s: string, c: char)
    requires !IsSpace(c)
    ensures TrimStart(s + [c]) == TrimStart(s) + [c]
  {
    TrimStartBefore(s, c, "");
    assert s + [c] + "" == s + [c];
    assert TrimStart(s) + [c] + "" == TrimStart(s) + [c];
  }

  lemma {:induction false} TrimStartIn(s: string, c: char)
    requires !IsSpace(c)
    ensures c in TrimStart(s) <==> c in s
  {
    if s != "" && IsSpace(s[0]) {
      TrimStartIn(s[1..], c);
      assert s == [s[0]] + s[1..];
    }
  }

  // Trimming the text behind export moves no '=' and no trimmed part.
  lemma {:induction false} SplitTrimmed(r: string)
    requires r != "" && !IsSpace(r[|r| - 1])
    ensures var p, q := SplitOnce(Trim(r), '='), SplitOnce(r, '=');
      && (p.None? <==> q.None?)
      && (p.Some? ==> Trim(p.value.0) == Trim(q.value.0) && p.value.1 == q.value.1)
  {
    var c := r[|r| - 1];
    assert r == r[..|r| - 1] + [c];
    TrimStartKeepsEnd(r[..|r| - 1], c);
    assert Trim(r) == TrimStart(r);
    TrimStartIn(r, '=');
    var q := SplitOnce(r, '=');
    if q.Some? {
      var (a, b) := q.value;
      TrimStartBefore(a, '=', b);
      assert '=' !in a;
      TrimStartIn(a, '=');
      SplitOnceAt(TrimStart(a), '=', b);
      TrimStartOnce(a);
    }
  }

  /** Line by line the two readers agree exactly when the line assigns only with export, to a
      non-empty name, and its value survives the expansion of HOME. */
  lemma {:induction false} SameReadingIff(raw: string, home: string)
    ensures SameReading(raw, home) <==> ExportOnly(raw) && Unexpanded(raw, home)
  {
    var line := Trim(raw);
    if line != "" && EXPORT <= line {
      assert IsSpace(EXPORT[|EXPORT| - 1]) && !IsSpace(line[|line| - 1]);
      assert |line| == |EXPORT| ==> line == EXPORT;
      SamePair(line[|EXPORT|..]);
    }
  }

  // What both readers make of the text behind export.
  lemma {:induction false} SamePair(r: string)
    requires r != "" && !IsSpace(r[|r| - 1])
    ensures var v, q := ReadPair(r), SplitOnce(r, '=');
      && (v.Some? <==> q.Some? && Trim(q.value.0) != "")
      && (v.Some? ==> v.value == Var(Trim(q.value.0), StripQuotes(Trim(q.value.1))))
  {
    SplitTrimmed(r);
    var q := SplitOnce(r, '=');
    if q.Some? {
      UnquoteIsStrip(Trim(q.value.1));
    }
  }

  lemma {:induction false} LastWinsAdds(vars: seq<Var>, v: Var)
    ensures LastWins(vars + [v]) == LastWins(vars)[v.name := v.value]
  {
    assert (vars + [v])[..|vars|] == vars;
  }

  lemma {:induction false} FoldAgrees(vs: seq<Option<Var>>, found: seq<Option<(string, string)>>, n: nat)
    requires n <= |vs| == |found|
    requires forall i :: 0 <= i < |vs| ==> SameResult(vs[i], found[i])
    ensures LastWins(CollectUpTo(vs, n)) == AssignUpTo(found, n)
  {
    if n != 0 {
      FoldAgrees(vs, found, n - 1);
      if vs[n - 1].Some? {
        LastWinsAdds(CollectUpTo(vs, n - 1), vs[n - 1].value);
      }
    }
  }

  /** On files of such lines, folding the list of one reader with the last assignment winning
      gives the map of the other. */
  lemma {:induction false} ReadersAgree(lines: seq<string>, home: string)
    requires forall i :: 0 <= i < |lines| ==> ExportOnly(lines[i]) && Unexpanded(lines[i], home)
    ensures LastWins(Entries(lines)) == Assignments(lines, home)
  {
    forall i | 0 <= i < |lines| ensures SameResult(EntriesOf(lines)[i], AssignmentsOf(lines, home)[i]) {
      EntriesOfAt(lines, i);
      AssignmentsOfAt(lines, home, i);
      SameReadingIff(lines[i], home);
    }
    FoldAgrees(EntriesOf(lines), AssignmentsOf(lines, home), |lines|);
  }

  lemma {:induction false} ReplaceNothing(s: string, pat: string, replacement: string)
    requires pat != "" && !Contains(s, pat)
    ensures ReplaceStr(s, pat, replacement) == s
  {
    if s != "" {
      assert s[0..] == s;
      assert forall i :: 0 <= i <= |s| - 1 - |pat| ==> s[1..][i..] == s[i + 1..];
      assert !Contains(s[1..], pat);
      ReplaceNothing(s[1..], pat, replacement);
    }
  }

  // What a caller can look for: neither form of a reference to HOME in the value.
  predicate HomeFree(raw: string) {
    var v := EntryOf(raw);
    v.Some? ==> !Contains(v.value.value, "${HOME}") && !Contains(v.value.value, "$HOME")
  }

  function Dollars(s: string): nat {
    if s == "" then 0 else (if s[0] == '$' then 1 else 0) + Dollars(s[1..])
  }

  lemma {:induction false} DollarsAppend(a: string, b: string)
    ensures Dollars(a + b) == Dollars(a) + Dollars(b)
  {
    if a == "" {
      assert a + b == b;
    } else {
      assert (a + b)[1..] == a[1..] + b;
      DollarsAppend(a[1..], b);
    }
  }

  lemma {:induction false} NoDollars(s: string)
    requires '$' !in s
    ensures Dollars(s) == 0
  {
    if s != "" {
      NoDollars(s[1..]);
    }
  }

  // Every replacement takes a dollar sign away.
  lemma {:induction false} ReplaceDrops(s: string, pat: string, replacement: string)
    requires pat != "" && pat[0] == '$' && '$' !in replacement
    ensures Dollars(ReplaceStr(s, pat, replacement)) <= Dollars(s)
    ensures Contains(s, pat) ==> Dollars(ReplaceStr(s, pat, replacement)) < Dollars(s)
    decreases |s|
  {
    if s == "" {
    } else if pat <= s {
      var rest := s[|pat|..];
      ReplaceDrops(rest, pat, replacement);
      NoDollars(replacement);
      DollarsAppend(replacement, ReplaceStr(rest, pat, replacement));
      assert s == pat + rest;
      DollarsAppend(pat, rest);
    } else {
      ReplaceDrops(s[1..], pat, replacement);
      DollarsAppend([s[0]], ReplaceStr(s[1..], pat, replacement));
      DollarsAppend([s[0]], s[1..]);
      assert [s[0]] + s[1..] == s;
      if i :| 0 <= i <= |s| - |pat| && pat <= s[i..] {
        assert i > 0 && s[1..][i - 1..] == s[i..];
      }
    }
  }

  lemma {:induction false} ExpansionIff(s: string, home: string)
    requires '$' !in home
    ensures ExpandHome(s, home) == s <==> !Contains(s, "${HOME}") && !Contains(s, "$HOME")
  {
    if !Contains(s, "${HOME}") && !Contains(s, "$HOME") {
      NoHomeIsHomeFree(s, home);
    } else {
      var once := ReplaceStr(s, "${HOME}", home);
      ReplaceDrops(s, "${HOME}", home);
      ReplaceDrops(once, "$HOME", home);
      if !Contains(s, "${HOME}") {
        ReplaceNothing(s, "${HOME}", home);
      }
    }
  }

  /** A value without $HOME and ${HOME} survives the expansion, whatever HOME is. */
  lemma {:induction false} NoHomeIsHomeFree(s: string, home: string)
    requires !Contains(s, "${HOME}") && !Contains(s, "$HOME")
    ensures ExpandHome(s, home) == s
  {
    ReplaceNothing(s, "${HOME}", home);
    ReplaceNothing(s, "$HOME", home);
  }

  /** Where HOME is a path without a dollar sign, both readers make the same of a line exactly when it is export-only
      and its value refers to HOME in neither form. */
  lemma {:induction false} SameLineIff(raw: string, home: string)
    requires '$' !in home
    ensures SameReading(raw, home) <==> ExportOnly(raw) && HomeFree(raw)
  {
    SameReadingIff(raw, home);
    if EntryOf(raw).Some? {
      ExpansionIff(EntryOf(raw).value.value, home);
    }
  }

  /** On files of export-only lines without references to HOME, folding the list of the one reader with last-wins gives
      the map of the other, whatever HOME is. */
  lemma {:induction false} FilesAgree(lines: seq<string>, home: string)
    requires forall i :: 0 <= i < |lines| ==> ExportOnly(lines[i]) && HomeFree(lines[i])
    ensures LastWins(Entries(lines)) == Assignments(lines, home)
  {
    forall i | 0 <= i < |lines| ensures Unexpanded(lines[i], home) {
      if EntryOf(lines[i]).Some? {
        NoHomeIsHomeFree(EntryOf(lines[i]).value.value, home);
      }
    }
    ReadersAgree(lines, home);
  }
}
