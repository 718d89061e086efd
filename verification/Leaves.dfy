/** What the leaves of values.json mean: src/plan.rs, resolve_value and load_and_resolve_values, in terms of the texts
    that stand in the file. */
module Leaves {
  import opened Prelude
  import opened Json
  import opened Text
  import opened Patterns
  import opened Template
  import opened Values
  import Memory

  // ── texts with references to variables ───────────────────────────────────

  // Opened and shut tell whether the braces around a name are there; a Dollar stands for itself.
  datatype Part = Lit(s: string) | Var(braced: bool, name: string, shut: bool) | Dollar

  function PrintPart(x: Part): string {
    match x
    case Lit(s) => s
    case Var(braced, name, shut) => "$" + (if braced then "{" else "") + (name + if shut then "}" else "")
    case Dollar => "$"
  }

  function PrintParts(xs: seq<Part>): string {
    if xs == [] then "" else PrintPart(xs[0]) + PrintParts(xs[1..])
  }

  predicate NameHead(c: char) {
    'A' <= c <= 'Z' || c == '_'
  }

  predicate NameChar(c: char) {
    NameHead(c) || '0' <= c <= '9'
  }

  predicate VarName(name: string) {
    name != "" && NameHead(name[0]) && forall i :: 0 <= i < |name| ==> NameChar(name[i])
  }

  predicate StartsName(rest: string) {
    var a := if rest != "" && rest[0] == '{' then rest[1..] else rest;
    a != "" && NameHead(a[0])
  }

  // x stands for what it says when this text follows.
  predicate Fits(x: Part, rest: string) {
    match x
    case Lit(s) => '$' !in s
    case Var(_, name, shut) => VarName(name) && (shut || rest == "" || (!NameChar(rest[0]) && rest[0] != '}'))
    case Dollar => !StartsName(rest)
  }

  predicate Clean(xs: seq<Part>) {
    xs == [] || (Fits(xs[0], PrintParts(xs[1..])) && Clean(xs[1..]))
  }

  function Unnamed(env: map<string, string>, xs: seq<Part>): seq<string> {
    if xs == [] then []
    else (if xs[0].Var? && xs[0].name !in env then [xs[0].name] else []) + Unnamed(env, xs[1..])
  }

  function Fill(env: map<string, string>, xs: seq<Part>): string {
    if xs == [] then ""
    else
      (match xs[0]
       case Lit(s) => s
       case Var(_, name, _) => if name in env then env[name] else ""
       case Dollar => "$") + Fill(env, xs[1..])
  }

  // ── they are read as they are written ────────────────────────────────────

  lemma {:induction false} NameEnds(name: string, rest: string)
    requires (forall i :: 0 <= i < |name| ==> NameChar(name[i])) && (rest == "" || !NameChar(rest[0]))
    ensures EnvLen(name + rest) == |name|
  {
    if name == "" {
      assert name + rest == rest;
    } else {
      assert (name + rest)[0] == name[0] && (name + rest)[1..] == name[1..] + rest;
      NameEnds(name[1..], rest);
    }
  }

  lemma {:induction false} NameSplits(name: string, rest: string)
    ensures (name + rest)[..|name|] == name && (name + rest)[|name|..] == rest
  {
  }

  function HitOf(body: string): Hit {
    var n := EnvLen(body);
    Hit(Cap(body[..n], false), if "}" <= body[n..] then body[n + 1..] else body[n..])
  }

  lemma {:induction false} BareMatches(body: string)
    requires body != "" && NameHead(body[0])
    ensures MatchEnv("$" + body) == Some(HitOf(body))
  {
    assert ("$" + body)[1..] == body;
  }

  lemma {:induction false} BracedMatches(body: string)
    requires body != "" && NameHead(body[0])
    ensures MatchEnv("$" + ("{" + body)) == Some(HitOf(body))
  {
    var s := "$" + ("{" + body);
    assert s[1..] == "{" + body && s[2..] == body;
  }

  lemma {:induction false} BodyMatches(braced: bool, body: string)
    requires body != "" && NameHead(body[0])
    ensures MatchEnv("$" + (if braced then "{" else "") + body) == Some(HitOf(body))
  {
    Assoc("$", if braced then "{" else "", body);
    if braced {
      BracedMatches(body);
    } else {
      BareMatches(body);
      assert "" + body == body;
    }
  }

  lemma {:induction false} NameHit(name: string, shut: bool, rest: string)
    requires VarName(name) && (shut || rest == "" || (!NameChar(rest[0]) && rest[0] != '}'))
    ensures var body := name + ((if shut then "}" else "") + rest);
      body != "" && body[0] == name[0] && HitOf(body) == Hit(Cap(name, false), rest)
  {
    var tail := (if shut then "}" else "") + rest;
    if shut {
      assert tail[0] == '}' && tail[1..] == rest;
    } else {
      assert tail == rest;
    }
    NameEnds(name, tail);
    NameSplits(name, tail);
    assert shut ==> (name + tail)[|name| + 1..] == tail[1..];
  }

  lemma {:induction false} VarMatches(x: Part, rest: string)
    requires x.Var? && Fits(x, rest)
    ensures MatchEnv(PrintPart(x) + rest) == Some(Hit(Cap(x.name, false), rest))
  {
    VarText(x.braced, x.name, x.shut, rest);
    NameHit(x.name, x.shut, rest);
    BodyMatches(x.braced, x.name + ((if x.shut then "}" else "") + rest));
  }

  lemma {:induction false} DollarMisses(rest: string)
    requires !StartsName(rest)
    ensures MatchEnv("$" + rest) == None
  {
    assert ("$" + rest)[1..] == rest && (rest != "" ==> ("$" + rest)[2..] == rest[1..]);
  }

  lemma {:induction false} Misses(f: Cap -> string, c: char, rest: string)
    requires MatchEnv([c] + rest) == None
    ensures Captures(EnvRef, [c] + rest) == Captures(EnvRef, rest)
    ensures ReplaceAll(EnvRef, f, [c] + rest) == [c] + ReplaceAll(EnvRef, f, rest)
  {
    assert Match(EnvRef, [c] + rest) == None && ([c] + rest)[1..] == rest;
  }

  lemma {:induction false} LitScans(f: Cap -> string, s: string, rest: string)
    requires '$' !in s
    ensures Captures(EnvRef, s + rest) == Captures(EnvRef, rest)
    ensures ReplaceAll(EnvRef, f, s + rest) == s + ReplaceAll(EnvRef, f, rest)
  {
    if s == "" {
      assert s + rest == rest;
    } else {
      assert s[0] in s && s == [s[0]] + s[1..];
      LitScans(f, s[1..], rest);
      Assoc([s[0]], s[1..], rest);
      Assoc([s[0]], s[1..], ReplaceAll(EnvRef, f, rest));
      Misses(f, s[0], s[1..] + rest);
    }
  }

  lemma {:induction false} VarScans(f: Cap -> string, x: Part, rest: string)
    requires x.Var? && Fits(x, rest)
    ensures Captures(EnvRef, PrintPart(x) + rest) == [Cap(x.name, false)] + Captures(EnvRef, rest)
    ensures ReplaceAll(EnvRef, f, PrintPart(x) + rest) == f(Cap(x.name, false)) + ReplaceAll(EnvRef, f, rest)
  {
    VarMatches(x, rest);
    assert Match(EnvRef, PrintPart(x) + rest) == Some(Hit(Cap(x.name, false), rest)) && PrintPart(x) + rest != "";
  }

  lemma {:induction false} UnsetAre(env: map<string, string>, cap: Cap, caps: seq<Cap>)
    ensures Unset(env, [cap] + caps) == (if cap.name in env then [] else [cap.name]) + Unset(env, caps)
  {
    assert ([cap] + caps)[1..] == caps;
  }

  lemma {:induction false} PartsScan(env: map<string, string>, xs: seq<Part>)
    requires Clean(xs)
    ensures Unset(env, Captures(EnvRef, PrintParts(xs))) == Unnamed(env, xs)
    ensures ReplaceAll(EnvRef, EnvValue(env), PrintParts(xs)) == Fill(env, xs)
  {
    if xs != [] {
      var rest := PrintParts(xs[1..]);
      PartsScan(env, xs[1..]);
      match xs[0] {
        case Lit(s) => LitScans(EnvValue(env), s, rest);
        case Var(_, name, _) =>
          VarScans(EnvValue(env), xs[0], rest);
          UnsetAre(env, Cap(name, false), Captures(EnvRef, rest));
        case Dollar =>
          DollarMisses(rest);
          Misses(EnvValue(env), '$', rest);
      }
    }
  }

  lemma {:induction false} NothingReplaced(p: Pattern, f: Cap -> string, s: string)
    requires Captures(p, s) == []
    ensures ReplaceAll(p, f, s) == s
    decreases |s|
  {
    if s != "" {
      NothingReplaced(p, f, s[1..]);
      assert s == [s[0]] + s[1..];
    }
  }

  lemma {:induction false} InterpolatesParts(o: Outside, xs: seq<Part>)
    requires Clean(xs)
    ensures Interpolate(o, PrintParts(xs)) ==
      if Unnamed(o.env, xs) == [] then Ok(Concrete(Fill(o.env, xs))) else Err(NoSuchVariable(Unnamed(o.env, xs)))
  {
    PartsScan(o.env, xs);
    if Captures(EnvRef, PrintParts(xs)) == [] {
      NothingReplaced(EnvRef, EnvValue(o.env), PrintParts(xs));
    }
  }

  lemma {:induction false} NameRun(a: string)
    ensures forall i :: 0 <= i < EnvLen(a) ==> NameChar(a[i])
    ensures EnvLen(a) < |a| ==> !NameChar(a[EnvLen(a)])
  {
    if a != "" && NameChar(a[0]) {
      NameRun(a[1..]);
    }
  }

  // A name with its closing brace, if it has one.
  lemma {:induction false} NamePart(a: string) returns (name: string, shut: bool, rest: string)
    requires a != "" && NameHead(a[0])
    ensures a == name + ((if shut then "}" else "") + rest) && VarName(name)
    ensures shut || rest == "" || (!NameChar(rest[0]) && rest[0] != '}')
    ensures |rest| <= |a|
  {
    var n := EnvLen(a);
    NameRun(a);
    name, shut := a[..n], "}" <= a[n..];
    rest := if shut then a[n + 1..] else a[n..];
    assert name[0] == a[0];
    assert a == a[..n] + a[n..];
    assert shut ==> a[n..] == "}" + a[n..][1..];
    assert !shut ==> a[n..] == "" + a[n..];
    assert !shut && rest != "" && rest[0] == '}' ==> "}" <= rest;
  }

  lemma {:induction false} VarText(braced: bool, name: string, shut: bool, rest: string)
    ensures PrintPart(Var(braced, name, shut)) + rest ==
      "$" + (if braced then "{" else "") + (name + ((if shut then "}" else "") + rest))
  {
    Assoc("$" + (if braced then "{" else ""), name + (if shut then "}" else ""), rest);
    Assoc(name, if shut then "}" else "", rest);
  }

  lemma {:induction false} DollarSplits(s: string)
    requires MatchEnv(s).Some?
    ensures var a := if "{" <= s[1..] then s[2..] else s[1..];
      a != "" && NameHead(a[0]) && s == "$" + (if "{" <= s[1..] then "{" else "") + a
  {
    assert s == "$" + s[1..];
    if "{" <= s[1..] {
      assert s[1..] == "{" + s[2..];
    } else {
      assert "$" + "" == "$";
    }
  }

  // The reference at the head of a text.
  lemma {:induction false} HeadPart(s: string) returns (x: Part, rest: string)
    requires MatchEnv(s).Some?
    ensures x.Var? && s == PrintPart(x) + rest && Fits(x, rest) && |rest| < |s|
  {
    var braced := "{" <= s[1..];
    var a := if braced then s[2..] else s[1..];
    DollarSplits(s);
    var name, shut;
    name, shut, rest := NamePart(a);
    x := Var(braced, name, shut);
    VarText(braced, name, shut, rest);
  }

  /** Every text is made of such parts. */
  lemma {:induction false} Parses(s: string) returns (xs: seq<Part>)
    ensures Clean(xs) && PrintParts(xs) == s
    decreases |s|
  {
    xs := [];
    if s != "" {
      var x, rest;
      if MatchEnv(s).Some? {
        x, rest := HeadPart(s);
      } else {
        x, rest := if s[0] == '$' then Dollar else Lit([s[0]]), s[1..];
        assert s == [s[0]] + rest;
        assert s[0] == '$' && rest != "" ==> s[2..] == rest[1..];
      }
      var others := Parses(rest);
      xs := [x] + others;
      assert xs[1..] == others;
    }
  }

  // ── what a text becomes ──────────────────────────────────────────────────

  predicate Wrapped(t: string, prefix: string, inner: string) {
    t == prefix + inner + ")"
  }

  ghost predicate Unwrapped(t: string) {
    forall inner ::
      !Wrapped(t, "shell(", inner) && !Wrapped(t, "onceshell(", inner) && !Wrapped(t, "file(", inner) && !Wrapped(t, "vault(", inner)
  }

  // The meaning of a text, except that what a onceshell command answers is left open.
  ghost predicate Becomes(o: Outside, text: string, v: ResolvedValue) {
    var t := Trim(text);
    && (forall cmd :: Wrapped(t, "shell(", cmd) ==> v == Shell(cmd))
    && (forall cmd :: Wrapped(t, "onceshell(", cmd) ==> v.Concrete?)
    && (forall key :: Wrapped(t, "vault(", key) ==> v == Vault(key))
    && (forall path :: Wrapped(t, "file(", path) ==> Trim(path) in o.files && v == Concrete(o.files[Trim(path)]))
    && (Unwrapped(t) && '$' !in t ==> v == Concrete(t))
    && (Unwrapped(t) ==> forall xs :: Clean(xs) && PrintParts(xs) == t ==>
          Unnamed(o.env, xs) == [] && v == Concrete(Fill(o.env, xs)))
  }

  // Why a text does not resolve.
  ghost predicate Blames(o: Outside, text: string, fault: Fault) {
    var t := Trim(text);
    match fault
    case OnceFailed(cmd) => Wrapped(t, "onceshell(", cmd)
    case Unreadable(path) => path !in o.files && exists p :: Wrapped(t, "file(", p) && path == Trim(p)
    case NoSuchVariable(names) =>
      names != [] && Unwrapped(t) && exists xs :: Clean(xs) && PrintParts(xs) == t && names == Unnamed(o.env, xs)
    case _ => false
  }

  lemma {:induction false} StripIff(s: string, prefix: string, inner: string)
    ensures StripWrapper(s, prefix) == Some(inner) <==> Wrapped(s, prefix, inner)
  {
    if Wrapped(s, prefix, inner) {
      assert s[..|prefix|] == prefix && s[|prefix|..|s| - 1] == inner;
    }
    if StripWrapper(s, prefix) == Some(inner) {
      assert s == s[..|prefix|] + s[|prefix|..|s| - 1] + [s[|s| - 1]];
    }
  }

  lemma {:induction false} HeadOf(t: string, prefix: string, inner: string)
    requires Wrapped(t, prefix, inner) && prefix != ""
    ensures t != "" && t[0] == prefix[0]
  {
  }

  // A text has one wrapper at most.
  lemma {:induction false} OneWrapper(t: string)
    ensures forall inner :: Wrapped(t, "shell(", inner) ==> t != "" && t[0] == 's'
    ensures forall inner :: Wrapped(t, "onceshell(", inner) ==> t != "" && t[0] == 'o'
    ensures forall inner :: Wrapped(t, "file(", inner) ==> t != "" && t[0] == 'f'
    ensures forall inner :: Wrapped(t, "vault(", inner) ==> t != "" && t[0] == 'v'
  {
    forall prefix, inner | Wrapped(t, prefix, inner) && prefix != "" ensures t != "" && t[0] == prefix[0] {
      HeadOf(t, prefix, inner);
    }
  }

  lemma {:induction false} StripAll(t: string)
    ensures forall inner :: StripWrapper(t, "shell(") == Some(inner) <==> Wrapped(t, "shell(", inner)
    ensures forall inner :: StripWrapper(t, "onceshell(") == Some(inner) <==> Wrapped(t, "onceshell(", inner)
    ensures forall inner :: StripWrapper(t, "file(") == Some(inner) <==> Wrapped(t, "file(", inner)
    ensures forall inner :: StripWrapper(t, "vault(") == Some(inner) <==> Wrapped(t, "vault(", inner)
  {
    forall prefix, inner ensures StripWrapper(t, prefix) == Some(inner) <==> Wrapped(t, prefix, inner) {
      StripIff(t, prefix, inner);
    }
  }

  lemma {:induction false} TextBecomes(o: Outside, text: string)
    requires Unwrapped(Trim(text))
    ensures var r := Interpolate(o, Trim(text));
      if r.Ok? then Becomes(o, text, r.value) else Blames(o, text, r.error)
  {
    var t := Trim(text);
    var xs := Parses(t);
    InterpolatesParts(o, xs);
    forall ys | Clean(ys) && PrintParts(ys) == t
      ensures Interpolate(o, t) ==
        if Unnamed(o.env, ys) == [] then Ok(Concrete(Fill(o.env, ys))) else Err(NoSuchVariable(Unnamed(o.env, ys)))
    {
      InterpolatesParts(o, ys);
    }
    if '$' !in t { LitAlone(o, t); }
  }

  lemma {:induction false} WrappedBecomes(o: Outside, text: string)
    requires StripWrapper(Trim(text), "onceshell(").None? && !Unwrapped(Trim(text))
    ensures var r := ResolvePlain(o, Trim(text));
      if r.Ok? then Becomes(o, text, r.value) else Blames(o, text, r.error)
  {
    StripAll(Trim(text));
    OneWrapper(Trim(text));
  }

  lemma {:induction false} PlainBecomes(o: Outside, text: string)
    requires OnceCommand(text).None?
    ensures var r := ResolvePlain(o, Trim(text));
      if r.Ok? then Becomes(o, text, r.value) else Blames(o, text, r.error)
  {
    if Unwrapped(Trim(text)) {
      StripAll(Trim(text));
      TextBecomes(o, text);
    } else {
      WrappedBecomes(o, text);
    }
  }

  lemma {:induction false} LitAlone(o: Outside, t: string)
    requires '$' !in t
    ensures Clean([Lit(t)]) && PrintParts([Lit(t)]) == t && Unnamed(o.env, [Lit(t)]) == [] && Fill(o.env, [Lit(t)]) == t
  {
    assert [Lit(t)][1..] == [] && t + "" == t;
  }

  // ── which leaf stands under which key ────────────────────────────────────

  predicate Reaches(v: Values, path: seq<string>, leaf: Values)
    decreases |path|
  {
    if path == [] then !v.Node? && v == leaf
    else v.Node? && exists i :: 0 <= i < |v.fields| && v.fields[i].name == path[0] && Reaches(v.fields[i].value, path[1..], leaf)
  }

  function Dots(path: seq<string>): string {
    if path == [] then "" else "." + path[0] + Dots(path[1..])
  }

  // The names joined by dots; empty names in front are lost.
  function Dotted(path: seq<string>): string {
    if path == [] then "" else if path[0] == "" then Dotted(path[1..]) else path[0] + Dots(path[1..])
  }

  function Under(prefix: string, path: seq<string>): string {
    if prefix == "" then Dotted(path) else prefix + Dots(path)
  }

  lemma {:induction false} UnderJoined(prefix: string, path: seq<string>)
    requires path != []
    ensures Under(Join(prefix, path[0]), path[1..]) == Under(prefix, path)
  {
    if prefix != "" {
      assert prefix + "." + path[0] + Dots(path[1..]) == prefix + ("." + path[0] + Dots(path[1..]));
    }
  }

  predicate Holds(items: seq<Item>, key: string, leaf: Values) {
    Item(key, leaf) in items
  }

  lemma {:induction false} ReachedIsLeaf(v: Values, prefix: string, path: seq<string>, leaf: Values)
    requires Reaches(v, path, leaf)
    ensures Holds(LeavesOf(v, prefix), Under(prefix, path), leaf)
    decreases v, 1
  {
    if path == [] {
      assert LeavesOf(v, prefix)[0] == Item(prefix, leaf);
      assert prefix + "" == prefix;
    } else {
      var i :| 0 <= i < |v.fields| && v.fields[i].name == path[0] && Reaches(v.fields[i].value, path[1..], leaf);
      ReachedInFields(v.fields, i, prefix, path, leaf);
    }
  }

  lemma {:induction false} ReachedInFields(fields: seq<Field>, i: nat, prefix: string, path: seq<string>, leaf: Values)
    requires i < |fields| && path != [] && fields[i].name == path[0] && Reaches(fields[i].value, path[1..], leaf)
    ensures Holds(LeavesOfFields(fields, prefix), Under(prefix, path), leaf)
    decreases fields, 0
  {
    if i == 0 {
      ReachedIsLeaf(fields[0].value, Join(prefix, fields[0].name), path[1..], leaf);
      UnderJoined(prefix, path);
    } else {
      ReachedInFields(fields[1..], i - 1, prefix, path, leaf);
    }
  }

  lemma {:induction false} LeafIsReached(v: Values, prefix: string, item: Item) returns (path: seq<string>)
    requires item in LeavesOf(v, prefix)
    ensures Reaches(v, path, item.leaf) && item.key == Under(prefix, path)
    decreases v, 1
  {
    if v.Node? {
      var i;
      path, i := FieldIsReached(v.fields, prefix, item);
    } else {
      path := [];
      assert prefix + "" == prefix;
    }
  }

  lemma {:induction false} FieldIsReached(fields: seq<Field>, prefix: string, item: Item) returns (path: seq<string>, i: nat)
    requires item in LeavesOfFields(fields, prefix)
    ensures i < |fields| && path != [] && fields[i].name == path[0] && Reaches(fields[i].value, path[1..], item.leaf)
    ensures item.key == Under(prefix, path)
    decreases fields, 0
  {
    var key := Join(prefix, fields[0].name);
    if item in LeavesOf(fields[0].value, key) {
      var below := LeafIsReached(fields[0].value, key, item);
      path, i := [fields[0].name] + below, 0;
      assert path[1..] == below;
      UnderJoined(prefix, path);
    } else {
      path, i := FieldIsReached(fields[1..], prefix, item);
      i := i + 1;
    }
  }

  // ── what a load makes of them ────────────────────────────────────────────

  ghost predicate LeafBecomes(o: Outside, leaf: Values, v: ResolvedValue) {
    match leaf
    case Text(s) => Becomes(o, s, v)
    case Null => v == Concrete("null")
    case Other(shown) => v == Concrete(shown)
    case Node(_) => false
  }

  lemma {:induction false} OnceBecomes(o: Outside, text: string, st: State)
    requires OnceCommand(text).Some?
    ensures var r := RunOnce(o, OnceCommand(text).value, st).0;
      if r.Ok? then Becomes(o, text, r.value) else Blames(o, text, r.error)
  {
    StripAll(Trim(text));
    OneWrapper(Trim(text));
  }

  lemma {:induction false} ResolvedLeaf(o: Outside, leaf: Values, st: State)
    requires !leaf.Node?
    ensures var r := ResolveLeaf(o, leaf, st).0;
      if r.Ok? then LeafBecomes(o, leaf, r.value) else leaf.Text? && Blames(o, leaf.s, r.error)
  {
    if leaf.Text? {
      if OnceCommand(leaf.s).Some? { OnceBecomes(o, leaf.s, st); } else { PlainBecomes(o, leaf.s); }
    }
  }

  predicate NoNodes(items: seq<Item>) {
    forall i :: 0 <= i < |items| ==> !items[i].leaf.Node?
  }

  lemma {:induction false} ItemBecomes(o: Outside, items: seq<Item>, i: nat, resolved: map<string, ResolvedValue>, st: State)
    requires Memory.LastUnder(items, i) && NoNodes(items) && ResolveItems(o, items, resolved, st).fault.None?
    ensures var p := ResolveItems(o, items, resolved, st).resolved;
      items[i].key in p && LeafBecomes(o, items[i].leaf, p[items[i].key])
    decreases i
  {
    var (r, st') := ResolveLeaf(o, items[0].leaf, st);
    var next := resolved[items[0].key := r.value];
    assert forall j :: 0 <= j < |items| - 1 ==> items[1..][j] == items[j + 1];
    if i == 0 {
      ResolvedLeaf(o, items[0].leaf, st);
      Memory.UntouchedKey(o, items[1..], next, st', items[0].key);
    } else {
      ItemBecomes(o, items[1..], i - 1, next, st');
    }
  }

  lemma {:induction false} ItemBlamed(o: Outside, items: seq<Item>, resolved: map<string, ResolvedValue>, st: State) returns (i: nat)
    requires NoNodes(items) && ResolveItems(o, items, resolved, st).fault.Some?
    ensures i < |items| && items[i].leaf.Text? && Blames(o, items[i].leaf.s, ResolveItems(o, items, resolved, st).fault.value)
  {
    var (r, st') := ResolveLeaf(o, items[0].leaf, st);
    i := 0;
    if r.Err? {
      ResolvedLeaf(o, items[0].leaf, st);
    } else {
      assert forall j :: 0 <= j < |items| - 1 ==> items[1..][j] == items[j + 1];
      i := ItemBlamed(o, items[1..], resolved[items[0].key := r.value], st');
      i := i + 1;
    }
  }

  lemma {:induction false} LeavesAreNoNodes(v: Values, prefix: string)
    ensures NoNodes(LeavesOf(v, prefix))
  {
    forall i | 0 <= i < |LeavesOf(v, prefix)| ensures !LeavesOf(v, prefix)[i].leaf.Node? {
      var path := LeafIsReached(v, prefix, LeavesOf(v, prefix)[i]);
      EndsInLeaf(v, path, LeavesOf(v, prefix)[i].leaf);
    }
  }

  lemma {:induction false} EndsInLeaf(v: Values, path: seq<string>, leaf: Values)
    requires Reaches(v, path, leaf)
    ensures !leaf.Node?
    decreases |path|
  {
    if path != [] {
      var i :| 0 <= i < |v.fields| && v.fields[i].name == path[0] && Reaches(v.fields[i].value, path[1..], leaf);
      EndsInLeaf(v.fields[i].value, path[1..], leaf);
    }
  }

  lemma {:induction false} LastOf(items: seq<Item>, key: string, leaf: Values) returns (i: nat)
    requires Holds(items, key, leaf)
    ensures Memory.LastUnder(items, i) && items[i].key == key
    decreases |items|
  {
    var n := |items| - 1;
    if items[n].key == key {
      i := n;
    } else {
      assert items == items[..n] + [items[n]];
      i := LastOf(items[..n], key, leaf);
    }
  }

  // Only this leaf has the key that the path flattens to.
  ghost predicate Unambiguous(v: Values, path: seq<string>, leaf: Values) {
    forall path', leaf' :: Reaches(v, path', leaf') && Dotted(path') == Dotted(path) ==> leaf' == leaf
  }

  /** A load that succeeds gives every leaf, under the dotted names of its path, the value its text stands for. */
  lemma {:induction false} LoadedAsWritten(o: Outside, backup: Values, values: Values, st: State, path: seq<string>, leaf: Values)
    requires LoadSpec(o, backup, values, st).0.Ok? && Reaches(values, path, leaf) && Unambiguous(values, path, leaf)
    ensures var r := LoadSpec(o, backup, values, st).0.value;
      Dotted(path) in r && LeafBecomes(o, leaf, r[Dotted(path)])
  {
    var items := LeavesOf(values, "");
    ReachedIsLeaf(values, "", path, leaf);
    var i := LastOf(items, Dotted(path), leaf);
    var path' := LeafIsReached(values, "", items[i]);
    LeavesAreNoNodes(values, "");
    ItemBecomes(o, items, i, map[], st.(memory := Loaded(st.disk)));
  }

  ghost predicate HasKey(v: Values, key: string) {
    exists path, leaf :: Reaches(v, path, leaf) && Dotted(path) == key
  }

  ghost predicate Lacking(v: Values, key: string) {
    exists path, leaf :: Reaches(v, path, leaf) && Dotted(path) == key &&
      (leaf.Null? || (leaf.Text? && (Trim(leaf.s) == "" || Trim(leaf.s) == "CHANGE_ME")))
  }

  lemma {:induction false} KeysAreReached(v: Values, key: string)
    ensures key in KeysOf(v, "") <==> HasKey(v, key)
  {
    KeysAreLeaves(v, "");
    var items := LeavesOf(v, "");
    if key in KeysOf(v, "") {
      var i :| 0 <= i < |items| && items[i].key == key;
      var path := LeafIsReached(v, "", items[i]);
      assert Reaches(v, path, items[i].leaf) && Dotted(path) == key;
    }
    if HasKey(v, key) {
      var path, leaf :| Reaches(v, path, leaf) && Dotted(path) == key;
      ReachedIsLeaf(v, "", path, leaf);
      var i :| 0 <= i < |items| && items[i] == Item(key, leaf);
    }
  }

  lemma {:induction false} UnfilledIn(items: seq<Item>, key: string)
    ensures key in UnfilledKeys(items) <==> exists i :: 0 <= i < |items| && items[i].key == key && Unfilled(items[i].leaf)
  {
    if items != [] {
      UnfilledIn(items[1..], key);
      assert forall i :: 0 < i < |items| ==> items[i] == items[1..][i - 1];
      assert forall i :: 0 <= i < |items| - 1 ==> items[1..][i] == items[i + 1];
    }
  }

  lemma {:induction false} UnfilledIsLacking(v: Values, key: string)
    ensures key in UnfilledKeys(LeavesOf(v, "")) <==> Lacking(v, key)
  {
    var items := LeavesOf(v, "");
    UnfilledIn(items, key);
    if i :| 0 <= i < |items| && items[i].key == key && Unfilled(items[i].leaf) {
      var path := LeafIsReached(v, "", items[i]);
      assert Reaches(v, path, items[i].leaf) && Dotted(path) == key;
    }
    if Lacking(v, key) {
      var path, leaf :| Reaches(v, path, leaf) && Dotted(path) == key && Unfilled(leaf);
      ReachedIsLeaf(v, "", path, leaf);
      var i :| 0 <= i < |items| && items[i] == Item(key, leaf);
    }
  }

  // Why a load stops.
  ghost predicate Stops(o: Outside, backup: Values, values: Values, fault: Fault) {
    match fault
    case KeysDiffer(missing, extra) =>
      && (missing != {} || extra != {})
      && (forall key :: key in missing <==> HasKey(backup, key) && !HasKey(values, key))
      && (forall key :: key in extra <==> HasKey(values, key) && !HasKey(backup, key))
    case StillUnfilled(keys) => keys != [] && forall key :: key in keys <==> Lacking(values, key)
    case _ => exists path, s :: Reaches(values, path, Text(s)) && Blames(o, s, fault)
  }

  /** A load that fails names what is missing or left over between the two files, or every leaf that still has to be
      filled in, or a text that cannot be resolved; one that succeeds has none of the first two to name. */
  lemma {:induction false} LoadStops(o: Outside, backup: Values, values: Values, st: State)
    ensures var r := LoadSpec(o, backup, values, st).0;
      && (r.Err? ==> Stops(o, backup, values, r.error))
      && (r.Ok? ==> forall key :: (HasKey(backup, key) <==> HasKey(values, key)) && !Lacking(values, key))
  {
    var items := LeavesOf(values, "");
    forall key
      ensures key in KeysOf(backup, "") <==> HasKey(backup, key)
      ensures key in KeysOf(values, "") <==> HasKey(values, key)
      ensures key in UnfilledKeys(items) <==> Lacking(values, key)
    {
      KeysAreReached(backup, key);
      KeysAreReached(values, key);
      UnfilledIsLacking(values, key);
    }
    if KeysOf(backup, "") == KeysOf(values, "") {
      LeavesAreNoNodes(values, "");
      var p := ResolveItems(o, items, map[], st.(memory := Loaded(st.disk)));
      if UnfilledKeys(items) == [] && p.fault.Some? {
        var i := ItemBlamed(o, items, map[], st.(memory := Loaded(st.disk)));
        var path := LeafIsReached(values, "", items[i]);
        assert Reaches(values, path, Text(items[i].leaf.s));
      }
    } else {
      DifferentSets(KeysOf(backup, ""), KeysOf(values, ""));
    }
  }

  lemma {:induction false} DifferentSets(a: set<string>, b: set<string>)
    requires a != b
    ensures a - b != {} || b - a != {}
  {
    if a - b == {} && b - a == {} {
      SameKeys(a, b);
    }
  }

  // ── onceshell ────────────────────────────────────────────────────────────

  predicate Recalls(memory: map<string, Json>, cmd: string, text: string) {
    "onceshell:" + cmd in memory && memory["onceshell:" + cmd] == Str(text)
  }

  // Whatever is remembered now and was not before is what the command answered.
  ghost predicate Answered(o: Outside, before: map<string, Json>, after: map<string, Json>) {
    forall cmd, text :: Recalls(after, cmd, text) ==> Recalls(before, cmd, text) || exists n: nat :: o.sh(cmd, n) == Some(text)
  }

  lemma {:induction false} OnceAnswers(o: Outside, leaf: Values, st: State)
    ensures Answered(o, st.memory, ResolveLeaf(o, leaf, st).1.memory)
  {
    if leaf.Text? && OnceCommand(leaf.s).Some? {
      var own := OnceCommand(leaf.s).value;
      var after := ResolveLeaf(o, leaf, st).1.memory;
      forall cmd, text | Recalls(after, cmd, text) && !Recalls(st.memory, cmd, text)
        ensures exists n: nat :: o.sh(cmd, n) == Some(text)
      {
        if cmd != own { Memory.CacheKeysDiffer(cmd, own); }
        assert o.sh(cmd, st.attempts) == Some(text);
      }
    }
  }

  lemma {:induction false} ItemsAnswer(o: Outside, items: seq<Item>, resolved: map<string, ResolvedValue>, st: State)
    ensures Answered(o, st.memory, ResolveItems(o, items, resolved, st).st.memory)
  {
    if items != [] {
      var (r, st') := ResolveLeaf(o, items[0].leaf, st);
      OnceAnswers(o, items[0].leaf, st);
      if r.Ok? {
        ItemsAnswer(o, items[1..], resolved[items[0].key := r.value], st');
      }
    }
  }

  /** A onceshell text stands for what the file remembers of its command afterwards, which the file remembered before or
      the command answered now. */
  lemma {:induction false} OnceAsAnswered(o: Outside, backup: Values, values: Values, st: State, i: nat, cmd: string)
    requires Memory.Memo(st) && LoadSpec(o, backup, values, st).0.Ok? && Memory.LastUnder(LeavesOf(values, ""), i)
    requires var leaf := LeavesOf(values, "")[i].leaf; leaf.Text? && Wrapped(Trim(leaf.s), "onceshell(", cmd)
    ensures var (r, st') := LoadSpec(o, backup, values, st);
      var key := LeavesOf(values, "")[i].key;
      && key in r.value && r.value[key].Concrete?
      && var text := r.value[key].text;
         && Recalls(Loaded(st'.disk), cmd, text)
         && (Recalls(Loaded(st.disk), cmd, text) || exists n: nat :: o.sh(cmd, n) == Some(text))
  {
    var items := LeavesOf(values, "");
    var loaded := st.(memory := Loaded(st.disk));
    StripIff(Trim(items[i].leaf.s), "onceshell(", cmd);
    Memory.OnceLeaf(o, items, i, map[], loaded);
    ItemsAnswer(o, items, map[], loaded);
    var text := Cached(ResolveItems(o, items, map[], loaded).st.memory, cmd).value;
    assert Recalls(ResolveItems(o, items, map[], loaded).st.memory, cmd, text);
  }
}
