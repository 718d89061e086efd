/** src/plan.rs: resolved values and render_template, and what its validation plus four
    replacement passes mean for a template. */
module Template {
  import opened Prelude
  import opened Text
  import opened Patterns

  datatype ResolvedValue = Concrete(text: string) | Vault(key: string) | Shell(cmd: string)

  // ResolvedValue::as_template_str
  function TemplateStr(v: ResolvedValue): string {
    match v
    case Concrete(text) => text
    case Vault(key) => VAULT + key + ")"
    case Shell(cmd) => "shell(" + cmd + ")"
  }

  datatype Entry = Entry(id: string, version: string)
  datatype Snapshot = Snapshot(services: seq<Entry>, packages: seq<Entry>, databases: seq<Entry>)

  function ShelfOf(snap: Snapshot, shelf: Shelf): seq<Entry> {
    match shelf
    case Services => snap.services
    case Packages => snap.packages
    case Databases => snap.databases
  }

  function VersionOf(entries: seq<Entry>, id: string): Option<string> {
    if entries == [] then None
    else if entries[0].id == id then Some(entries[0].version)
    else VersionOf(entries[1..], id)
  }

  // Everything render_template reads; base64 is a parameter.
  datatype Context = Context(values: map<string, ResolvedValue>, snap: Snapshot, b64: string -> string)

  predicate Known(ctx: Context, p: Pattern, cap: Cap) {
    if p.SnapRef? then VersionOf(ShelfOf(ctx.snap, p.shelf), cap.name).Some? else cap.name in ctx.values
  }

  // The replacement one capture gets, with the fallbacks written in the source.
  function Replacement(ctx: Context, p: Pattern, cap: Cap): string {
    if p.SnapRef? then
      var v := VersionOf(ShelfOf(ctx.snap, p.shelf), cap.name);
      if v.Some? then v.value else ""
    else if cap.name in ctx.values then
      var text := TemplateStr(ctx.values[cap.name]);
      if cap.b64 then ctx.b64(text) else text
    else OPEN + cap.name + CLOSE
  }

  function Filler(ctx: Context, p: Pattern): Cap -> string {
    cap => Replacement(ctx, p, cap)
  }

  function Pass(ctx: Context, p: Pattern, content: string): string {
    ReplaceAll(p, Filler(ctx, p), content)
  }

  datatype RefError = Undefined(p: Pattern, name: string)

  function Missing(ctx: Context, p: Pattern, caps: seq<Cap>): seq<RefError> {
    if caps == [] then []
    else (if Known(ctx, p, caps[0]) then [] else [Undefined(p, caps[0].name)]) + Missing(ctx, p, caps[1..])
  }

  function Validate(ctx: Context, content: string): seq<RefError> {
    Missing(ctx, ValueRef, Captures(ValueRef, content))
    + Missing(ctx, SnapRef(Services), Captures(SnapRef(Services), content))
    + Missing(ctx, SnapRef(Packages), Captures(SnapRef(Packages), content))
    + Missing(ctx, SnapRef(Databases), Captures(SnapRef(Databases), content))
  }

  function FourPasses(ctx: Context, content: string): string {
    Pass(ctx, SnapRef(Databases),
         Pass(ctx, SnapRef(Packages),
              Pass(ctx, SnapRef(Services),
                   Pass(ctx, ValueRef, content))))
  }

  function RenderTemplate(ctx: Context, content: string): Result<string, seq<RefError>> {
    var errors := Validate(ctx, content);
    if errors != [] then Err(errors) else Ok(FourPasses(ctx, content))
  }

  // ── templates as token lists ─────────────────────────────────────────────

  datatype Tok =
    | Raw(s: string)
    | Val(w1: string, key: string, w2: string, filter: Option<string>, w3: string)
    | Snap(w1: string, shelf: Shelf, id: string, w2: string)

  function FilterText(filter: Option<string>): string {
    if filter.Some? then "|" + filter.value + FILTER else ""
  }

  // A placeholder without its opening braces.
  function Body(t: Tok): string
    requires !t.Raw?
  {
    match t
    case Val(w1, key, w2, filter, w3) => w1 + (key + (w2 + (FilterText(filter) + (w3 + CLOSE))))
    case Snap(w1, shelf, id, w2) => w1 + (ShelfName(shelf) + "[\"" + (id + ("\"]" + (w2 + CLOSE))))
  }

  function PrintTok(t: Tok): string {
    if t.Raw? then t.s else OPEN + Body(t)
  }

  function Print(toks: seq<Tok>): string {
    if toks == [] then "" else PrintTok(toks[0]) + Print(toks[1..])
  }

  // No two adjacent opening braces, also not with whatever is put behind s.
  predicate Inert(s: string) {
    forall i :: 0 <= i < |s| && s[i] == '{' ==> i + 1 < |s| && s[i + 1] != '{'
  }

  predicate WellFormed(t: Tok) {
    match t
    case Raw(s) => Inert(s)
    case Val(w1, key, w2, filter, w3) =>
      AllSpace(w1) && ValidKey(key) && AllSpace(w2) && AllSpace(w3) && (filter.Some? ==> AllSpace(filter.value))
    case Snap(w1, shelf, id, w2) =>
      AllSpace(w1) && id != "" && '"' !in id && Inert(id + "\"") && AllSpace(w2)
  }

  predicate AllWellFormed(toks: seq<Tok>) {
    forall i :: 0 <= i < |toks| ==> WellFormed(toks[i])
  }

  function PatternOf(t: Tok): Pattern
    requires !t.Raw?
  {
    if t.Val? then ValueRef else SnapRef(t.shelf)
  }

  function CapOf(t: Tok): Cap
    requires !t.Raw?
  {
    if t.Val? then Cap(t.key, t.filter.Some?) else Cap(t.id, false)
  }

  // One left-to-right substitution of every placeholder at once.
  function Denote(ctx: Context, toks: seq<Tok>): string {
    if toks == [] then ""
    else
      (if toks[0].Raw? then toks[0].s else Replacement(ctx, PatternOf(toks[0]), CapOf(toks[0])))
      + Denote(ctx, toks[1..])
  }

  predicate AllKnown(ctx: Context, toks: seq<Tok>) {
    forall i :: 0 <= i < |toks| && !toks[i].Raw? ==> Known(ctx, PatternOf(toks[i]), CapOf(toks[i]))
  }

  // Values and versions that cannot open a placeholder themselves.
  predicate InertContext(ctx: Context) {
    && (forall k :: k in ctx.values ==> Inert(TemplateStr(ctx.values[k])) && Inert(ctx.b64(TemplateStr(ctx.values[k]))))
    && InertEntries(ctx.snap.services) && InertEntries(ctx.snap.packages) && InertEntries(ctx.snap.databases)
  }

  predicate InertEntries(entries: seq<Entry>) {
    forall i :: 0 <= i < |entries| ==> Inert(entries[i].version)
  }

  lemma {:induction false} InertConcat(a: string, b: string)
    requires Inert(a) && Inert(b)
    ensures Inert(a + b)
  {
    var s := a + b;
    forall i | 0 <= i < |s| && s[i] == '{' ensures i + 1 < |s| && s[i + 1] != '{' {
      if i < |a| {
        assert a[i] == '{' && s[i + 1] == a[i + 1];
      } else {
        assert b[i - |a|] == '{' && s[i + 1] == b[i - |a| + 1];
      }
    }
  }

  predicate EndsKey(rest: string) {
    rest != "" && !IsWord(rest[0]) && rest[0] != '.'
  }

  // A key followed by something that cannot extend it is matched exactly.
  lemma {:induction false} KeyStops(key: string, rest: string)
    requires KeyTail(key) == |key| && EndsKey(rest)
    ensures KeyTail(key + rest) == |key|
  {
    var s := key + rest;
    if key == "" {
      assert s == rest;
    } else {
      assert s[0] == key[0] && s[1..] == key[1..] + rest;
      assert key[0] == '.' ==> s[1] == key[1];
      KeyStops(key[1..], rest);
    }
  }

  // ── one placeholder, one matcher ─────────────────────────────────────────

  predicate NoBrace(s: string) { '{' !in s }

  // Behind the opening braces nothing in a placeholder starts a second pair.
  lemma {:induction false} BodyInert(t: Tok)
    requires WellFormed(t) && !t.Raw?
    ensures Inert("{" + Body(t))
  {
    match t {
      case Val(w1, key, w2, filter, w3) =>
        assert NoBrace(FilterText(filter));
        var rest := w2 + (FilterText(filter) + (w3 + CLOSE));
        assert NoBrace(rest);
        InertBehind(w1 + key, rest);
        assert Body(t) == (w1 + key) + rest;
      case Snap(w1, shelf, id, w2) =>
        assert NoBrace("]" + (w2 + CLOSE));
        InertConcat(id + "\"", "]" + (w2 + CLOSE));
        var rest := (id + "\"") + ("]" + (w2 + CLOSE));
        InertBehind(w1 + (ShelfName(shelf) + "[\""), rest);
        assert Body(t) == (w1 + (ShelfName(shelf) + "[\"")) + rest;
    }
  }

  lemma {:induction false} InertBehind(head: string, rest: string)
    requires head != "" && NoBrace(head) && Inert(rest)
    ensures Inert("{" + (head + rest))
  {
    assert Inert("{" + head);
    InertConcat("{" + head, rest);
    assert "{" + (head + rest) == ("{" + head) + rest;
  }

  lemma {:induction false} SkipTo(w: string, s: string)
    requires AllSpace(w) && s != "" && !IsSpace(s[0])
    ensures TrimStart(w + s) == s
  {
    TrimStartSkips(w, s);
  }

  // What follows a key in a placeholder.
  function AfterKey(t: Tok, rest: string): string
    requires t.Val?
  {
    t.w2 + (FilterText(t.filter) + (t.w3 + (CLOSE + rest)))
  }

  lemma {:induction false} AfterKeyEnds(t: Tok, rest: string)
    requires WellFormed(t) && t.Val?
    ensures EndsKey(AfterKey(t, rest)) && AfterKey(t, rest)[0] != '['
  {
    if t.w2 == "" && t.filter.None? && t.w3 == "" {
      assert AfterKey(t, rest) == CLOSE + rest;
    } else {
      var head := t.w2 + FilterText(t.filter) + t.w3;
      assert AfterKey(t, rest) == head + (CLOSE + rest);
      assert AfterKey(t, rest)[0] == head[0];
    }
  }

  lemma {:induction false} SplitValue(t: Tok, rest: string)
    requires WellFormed(t) && t.Val?
    ensures OPEN <= PrintTok(t) + rest
    ensures TrimStart((PrintTok(t) + rest)[|OPEN|..]) == t.key + AfterKey(t, rest)
    ensures EndsKey(AfterKey(t, rest)) && AfterKey(t, rest)[0] != '['
  {
    AfterKeyEnds(t, rest);
    ValueText(t, rest);
    SkipTo(t.w1, t.key + AfterKey(t, rest));
  }

  lemma {:induction false} ValueText(t: Tok, rest: string)
    requires t.Val?
    ensures OPEN <= PrintTok(t) + rest
    ensures (PrintTok(t) + rest)[|OPEN|..] == t.w1 + (t.key + AfterKey(t, rest))
  {
    assert PrintTok(t) + rest == OPEN + (t.w1 + (t.key + AfterKey(t, rest)));
  }

  lemma {:induction false} ClosesAt(w: string, rest: string, name: string, b64: bool)
    requires AllSpace(w)
    ensures TrimStart(w + (CLOSE + rest)) == CLOSE + rest
    ensures Close(CLOSE + rest, name, b64) == Some(Hit(Cap(name, b64), rest))
  {
    SkipTo(w, CLOSE + rest);
  }

  lemma {:induction false} ValueTailHits(t: Tok, rest: string, filters: bool)
    requires WellFormed(t) && t.Val? && (t.filter.Some? ==> filters)
    ensures ValueTail(TrimStart(AfterKey(t, rest)), t.key, filters) == Some(Hit(CapOf(t), rest))
  {
    var closing := t.w3 + (CLOSE + rest);
    if t.filter.Some? {
      var inner := FILTER + closing;
      var filtered := "|" + (t.filter.value + inner);
      assert FilterText(t.filter) + closing == filtered;
      SkipTo(t.w2, filtered);
      assert filtered[1..] == t.filter.value + inner;
      SkipTo(t.filter.value, inner);
      assert inner[|FILTER|..] == closing;
      ClosesAt(t.w3, rest, t.key, true);
    } else {
      assert AfterKey(t, rest) == (t.w2 + t.w3) + (CLOSE + rest);
      ClosesAt(t.w2 + t.w3, rest, t.key, false);
    }
  }

  lemma {:induction false} MatchOwnValue(t: Tok, rest: string, filters: bool)
    requires WellFormed(t) && t.Val? && (t.filter.Some? ==> filters)
    ensures MatchValue(PrintTok(t) + rest, filters) == Some(Hit(CapOf(t), rest))
  {
    SplitValue(t, rest);
    var a := t.key + AfterKey(t, rest);
    KeyStops(t.key, AfterKey(t, rest));
    assert a[..|t.key|] == t.key && a[|t.key|..] == AfterKey(t, rest);
    ValueTailHits(t, rest, filters);
  }

  // What follows the opening of a snapshot reference.
  function FromId(t: Tok, rest: string): string
    requires t.Snap?
  {
    t.id + ("\"]" + (t.w2 + (CLOSE + rest)))
  }

  function FromShelf(t: Tok, rest: string): string
    requires t.Snap?
  {
    ShelfName(t.shelf) + "[\"" + FromId(t, rest)
  }

  lemma {:induction false} SplitSnap(t: Tok, rest: string)
    requires WellFormed(t) && t.Snap?
    ensures OPEN <= PrintTok(t) + rest
    ensures TrimStart((PrintTok(t) + rest)[|OPEN|..]) == FromShelf(t, rest)
  {
    assert PrintTok(t) + rest == OPEN + (t.w1 + FromShelf(t, rest));
    assert (OPEN + (t.w1 + FromShelf(t, rest)))[|OPEN|..] == t.w1 + FromShelf(t, rest);
    SkipTo(t.w1, FromShelf(t, rest));
  }

  lemma {:induction false} MatchOwnSnap(t: Tok, rest: string)
    requires WellFormed(t) && t.Snap?
    ensures MatchSnap(PrintTok(t) + rest, t.shelf) == Some(Hit(CapOf(t), rest))
  {
    SplitSnap(t, rest);
    var head := ShelfName(t.shelf) + "[\"";
    assert (head + FromId(t, rest))[|head|..] == FromId(t, rest);
    SnapTailHits(t, rest);
  }

  lemma {:induction false} SnapTailHits(t: Tok, rest: string)
    requires WellFormed(t) && t.Snap?
    ensures SnapTail(FromId(t, rest)) == Some(Hit(CapOf(t), rest))
  {
    var closing := t.w2 + (CLOSE + rest);
    var b := FromId(t, rest);
    assert b == t.id + ['"'] + ("]" + closing);
    FindAt(t.id, '"', "]" + closing);
    assert b[..|t.id|] == t.id && b[|t.id|..] == "\"]" + closing;
    assert b[|t.id| + 2..] == closing;
    ClosesAt(t.w2, rest, t.id, false);
  }

  // A value reference is no snapshot reference, and the other way round.
  lemma {:induction false} ValueIsNoSnap(t: Tok, shelf: Shelf, rest: string)
    requires WellFormed(t) && t.Val?
    ensures MatchSnap(PrintTok(t) + rest, shelf) == None
  {
    SplitValue(t, rest);
    KeyIsNoShelf(t.key, AfterKey(t, rest), shelf);
  }

  lemma {:induction false} KeyIsNoShelf(key: string, rest: string, shelf: Shelf)
    requires ValidKey(key) && EndsKey(rest) && rest[0] != '['
    ensures SnapBody(key + rest, shelf) == None
  {
    var n := |ShelfName(shelf)|;
    assert forall i :: 0 <= i < n ==> IsWord(ShelfName(shelf)[i]);
    var i := if |key| < n then |key| else n;
    assert (key + rest)[i] != (ShelfName(shelf) + "[\"")[i];
  }

  lemma {:induction false} SnapIsNoValue(t: Tok, rest: string, filters: bool)
    requires WellFormed(t) && t.Snap?
    ensures MatchValue(PrintTok(t) + rest, filters) == None
  {
    SplitSnap(t, rest);
    var name := ShelfName(t.shelf);
    ShelfIsNoKey(name, "[\"", FromId(t, rest), filters);
  }

  lemma {:induction false} ShelfIsNoKey(name: string, open: string, rest: string, filters: bool)
    requires name != "" && forall i :: 0 <= i < |name| ==> IsWord(name[i])
    requires open != "" && open[0] == '['
    ensures ValueBody(name + open + rest, filters) == None
  {
    var tail := open + rest;
    assert name + open + rest == name + tail;
    AllWords(name);
    KeyStops(name, tail);
    assert (name + tail)[|name|..] == tail;
  }

  lemma AllWords(s: string)
    requires forall i :: 0 <= i < |s| ==> IsWord(s[i])
    ensures KeyTail(s) == |s|
  {
  }

  lemma {:induction false} SnapIsNoOther(t: Tok, shelf: Shelf, rest: string)
    requires WellFormed(t) && t.Snap? && shelf != t.shelf
    ensures MatchSnap(PrintTok(t) + rest, shelf) == None
  {
    SplitSnap(t, rest);
    assert FromShelf(t, rest)[0] == ShelfName(t.shelf)[0] != ShelfName(shelf)[0];
  }

  lemma {:induction false} FilterIsNoSet(t: Tok, rest: string)
    requires WellFormed(t) && t.Val? && t.filter.Some?
    ensures MatchValue(PrintTok(t) + rest, false) == None
  {
    SplitValue(t, rest);
    var a := t.key + AfterKey(t, rest);
    KeyStops(t.key, AfterKey(t, rest));
    assert a[|t.key|..] == AfterKey(t, rest);
    var filtered := FilterText(t.filter) + (t.w3 + (CLOSE + rest));
    SkipTo(t.w2, filtered);
  }

  // ── one pass over a whole template ───────────────────────────────────────

  predicate Braced(p: Pattern) {
    p == ValueRef || p == SetRef || p.SnapRef?
  }

  predicate Owns(p: Pattern, t: Tok) {
    && !t.Raw?
    && (p == PatternOf(t) || (p == SetRef && t.Val? && t.filter.None?))
  }

  lemma {:induction false} MatchTok(p: Pattern, t: Tok, rest: string)
    requires Braced(p) && WellFormed(t) && !t.Raw?
    ensures Match(p, PrintTok(t) + rest) == if Owns(p, t) then Some(Hit(CapOf(t), rest)) else None
  {
    if t.Val? {
      if p.SnapRef? {
        ValueIsNoSnap(t, p.shelf, rest);
      } else if p == SetRef && t.filter.Some? {
        FilterIsNoSet(t, rest);
      } else {
        MatchOwnValue(t, rest, p == ValueRef);
      }
    } else {
      if !p.SnapRef? {
        SnapIsNoValue(t, rest, p == ValueRef);
      } else if p.shelf == t.shelf {
        MatchOwnSnap(t, rest);
      } else {
        SnapIsNoOther(t, p.shelf, rest);
      }
    }
  }

  lemma {:induction false} HeadInert(p: Pattern, x: string, rest: string)
    requires Braced(p) && x != "" && Inert(x)
    ensures Match(p, x + rest) == None && Inert(x[1..])
    ensures (x + rest)[0] == x[0] && (x + rest)[1..] == x[1..] + rest
  {
    var i := if x[0] == '{' then 1 else 0;
    assert (x + rest)[i] == x[i] != OPEN[i];
    assert forall i :: 0 <= i < |x| - 1 ==> x[1..][i] == x[i + 1];
  }

  lemma {:induction false} CutHead(x: string, rest: string)
    requires x != ""
    ensures (x + rest)[0] == x[0] && (x + rest)[1..] == x[1..] + rest && x == [x[0]] + x[1..]
  {
  }

  lemma {:induction false} ScanInert(p: Pattern, f: Cap -> string, x: string, rest: string)
    requires Braced(p) && Inert(x)
    ensures ReplaceAll(p, f, x + rest) == x + ReplaceAll(p, f, rest)
  {
    if x == "" {
      assert x + rest == rest;
    } else {
      HeadInert(p, x, rest);
      CutHead(x, rest);
      ScanInert(p, f, x[1..], rest);
      Assoc([x[0]], x[1..], ReplaceAll(p, f, rest));
    }
  }

  lemma {:induction false} CaptureInert(p: Pattern, x: string, rest: string)
    requires Braced(p) && Inert(x)
    ensures Captures(p, x + rest) == Captures(p, rest)
  {
    if x == "" {
      assert x + rest == rest;
    } else {
      HeadInert(p, x, rest);
      CaptureInert(p, x[1..], rest);
    }
  }

  // What one pass makes of one token.
  function Rewrite(p: Pattern, f: Cap -> string, t: Tok): Tok {
    if Owns(p, t) then Raw(f(CapOf(t))) else t
  }

  lemma {:induction false} ScanOwned(p: Pattern, f: Cap -> string, t: Tok, rest: string)
    requires Braced(p) && WellFormed(t) && Owns(p, t)
    ensures ReplaceAll(p, f, PrintTok(t) + rest) == f(CapOf(t)) + ReplaceAll(p, f, rest)
    ensures Captures(p, PrintTok(t) + rest) == [CapOf(t)] + Captures(p, rest)
  {
    MatchTok(p, t, rest);
    assert PrintTok(t) + rest != "";
  }

  lemma {:induction false} ReplaceFrom(p: Pattern, f: Cap -> string, x: string, rest: string)
    requires Braced(p) && x != "" && Inert(x[1..]) && Match(p, x + rest) == None
    ensures ReplaceAll(p, f, x + rest) == x + ReplaceAll(p, f, rest)
  {
    CutHead(x, rest);
    ScanInert(p, f, x[1..], rest);
    Assoc([x[0]], x[1..], ReplaceAll(p, f, rest));
  }

  lemma {:induction false} CaptureFrom(p: Pattern, x: string, rest: string)
    requires Braced(p) && x != "" && Inert(x[1..]) && Match(p, x + rest) == None
    ensures Captures(p, x + rest) == Captures(p, rest)
  {
    assert (x + rest)[1..] == x[1..] + rest;
    CaptureInert(p, x[1..], rest);
  }

  lemma {:induction false} ScanForeign(p: Pattern, f: Cap -> string, t: Tok, rest: string)
    requires Braced(p) && WellFormed(t) && !t.Raw? && !Owns(p, t)
    ensures ReplaceAll(p, f, PrintTok(t) + rest) == PrintTok(t) + ReplaceAll(p, f, rest)
    ensures Captures(p, PrintTok(t) + rest) == Captures(p, rest)
  {
    MatchTok(p, t, rest);
    BodyInert(t);
    assert PrintTok(t)[1..] == "{" + Body(t);
    ReplaceFrom(p, f, PrintTok(t), rest);
    CaptureFrom(p, PrintTok(t), rest);
  }

  lemma {:induction false} ScanTok(p: Pattern, f: Cap -> string, t: Tok, rest: string)
    requires Braced(p) && WellFormed(t)
    ensures ReplaceAll(p, f, PrintTok(t) + rest) == PrintTok(Rewrite(p, f, t)) + ReplaceAll(p, f, rest)
    ensures Captures(p, PrintTok(t) + rest) == (if Owns(p, t) then [CapOf(t)] else []) + Captures(p, rest)
  {
    if t.Raw? {
      ScanInert(p, f, t.s, rest);
      CaptureInert(p, t.s, rest);
    } else if Owns(p, t) {
      ScanOwned(p, f, t, rest);
    } else {
      ScanForeign(p, f, t, rest);
    }
  }

  function RewriteAll(p: Pattern, f: Cap -> string, toks: seq<Tok>): (r: seq<Tok>)
    ensures |r| == |toks|
    ensures forall i :: 0 <= i < |r| ==> r[i] == Rewrite(p, f, toks[i])
  {
    if toks == [] then [] else [Rewrite(p, f, toks[0])] + RewriteAll(p, f, toks[1..])
  }

  function OwnCaps(p: Pattern, toks: seq<Tok>): seq<Cap> {
    if toks == [] then []
    else (if Owns(p, toks[0]) then [CapOf(toks[0])] else []) + OwnCaps(p, toks[1..])
  }

  // A pass rewrites exactly the tokens its pattern owns.
  lemma {:induction false} PassOnTokens(p: Pattern, f: Cap -> string, toks: seq<Tok>)
    requires Braced(p) && AllWellFormed(toks)
    ensures ReplaceAll(p, f, Print(toks)) == Print(RewriteAll(p, f, toks))
    ensures Captures(p, Print(toks)) == OwnCaps(p, toks)
  {
    if toks != [] {
      ScanTok(p, f, toks[0], Print(toks[1..]));
      PassOnTokens(p, f, toks[1..]);
    }
  }

  // ── the whole of render_template ─────────────────────────────────────────

  function Rewritten(ctx: Context, p: Pattern, toks: seq<Tok>): seq<Tok> {
    RewriteAll(p, Filler(ctx, p), toks)
  }

  // The tokens left after the four passes.
  function Settled(ctx: Context, toks: seq<Tok>): seq<Tok> {
    Rewritten(ctx, SnapRef(Databases),
              Rewritten(ctx, SnapRef(Packages),
                        Rewritten(ctx, SnapRef(Services),
                                  Rewritten(ctx, ValueRef, toks))))
  }

  lemma {:induction false} VersionInert(entries: seq<Entry>, id: string)
    requires InertEntries(entries)
    ensures VersionOf(entries, id).Some? ==> Inert(VersionOf(entries, id).value)
  {
    if entries != [] && entries[0].id != id {
      assert InertEntries(entries[1..]);
      VersionInert(entries[1..], id);
    }
  }

  lemma {:induction false} ReplacementInert(ctx: Context, p: Pattern, cap: Cap)
    requires InertContext(ctx) && Braced(p) && Known(ctx, p, cap)
    ensures Inert(Replacement(ctx, p, cap))
  {
    if p.SnapRef? {
      VersionInert(ShelfOf(ctx.snap, p.shelf), cap.name);
    }
  }

  // A pass keeps the template well-formed, its meaning, and what is known.
  lemma {:induction false} PassKeeps(ctx: Context, p: Pattern, toks: seq<Tok>)
    requires InertContext(ctx) && (p == ValueRef || p.SnapRef?)
    requires AllWellFormed(toks) && AllKnown(ctx, toks)
    ensures Pass(ctx, p, Print(toks)) == Print(Rewritten(ctx, p, toks))
    ensures AllWellFormed(Rewritten(ctx, p, toks)) && AllKnown(ctx, Rewritten(ctx, p, toks))
    ensures Denote(ctx, Rewritten(ctx, p, toks)) == Denote(ctx, toks)
  {
    PassOnTokens(p, Filler(ctx, p), toks);
    forall i | 0 <= i < |toks| ensures WellFormed(Rewritten(ctx, p, toks)[i]) {
      if Owns(p, toks[i]) {
        ReplacementInert(ctx, p, CapOf(toks[i]));
      }
    }
    DenoteKept(ctx, p, toks);
  }

  lemma {:induction false} DenoteKept(ctx: Context, p: Pattern, toks: seq<Tok>)
    requires p == ValueRef || p.SnapRef?
    ensures Denote(ctx, Rewritten(ctx, p, toks)) == Denote(ctx, toks)
  {
    if toks != [] {
      DenoteKept(ctx, p, toks[1..]);
      assert Rewritten(ctx, p, toks)[1..] == Rewritten(ctx, p, toks[1..]);
    }
  }

  lemma PlainText(ctx: Context, toks: seq<Tok>)
    requires forall i :: 0 <= i < |toks| ==> toks[i].Raw?
    ensures Print(toks) == Denote(ctx, toks)
  {
  }

  lemma {:induction false} RewriteFour(t: Tok, f1: Cap -> string, f2: Cap -> string, f3: Cap -> string, f4: Cap -> string)
    ensures Rewrite(SnapRef(Databases), f4,
                    Rewrite(SnapRef(Packages), f3, Rewrite(SnapRef(Services), f2, Rewrite(ValueRef, f1, t)))).Raw?
  {
    match t {
      case Raw(_) =>
      case Val(_, _, _, _, _) =>
        assert Owns(ValueRef, t);
      case Snap(_, shelf, _, _) =>
        assert shelf == Services || shelf == Packages || shelf == Databases;
        assert Owns(SnapRef(shelf), t);
    }
  }

  lemma {:induction false} SettledIsPlain(ctx: Context, toks: seq<Tok>)
    ensures |Settled(ctx, toks)| == |toks|
    ensures forall i :: 0 <= i < |toks| ==> Settled(ctx, toks)[i].Raw?
  {
    forall i | 0 <= i < |toks| ensures Settled(ctx, toks)[i].Raw? {
      RewriteFour(toks[i], Filler(ctx, ValueRef), Filler(ctx, SnapRef(Services)),
                  Filler(ctx, SnapRef(Packages)), Filler(ctx, SnapRef(Databases)));
    }
  }

  lemma {:induction false} FourPassesSettle(ctx: Context, toks: seq<Tok>)
    requires InertContext(ctx) && AllWellFormed(toks) && AllKnown(ctx, toks)
    ensures FourPasses(ctx, Print(toks)) == Print(Settled(ctx, toks)) == Denote(ctx, toks)
    ensures AllWellFormed(Settled(ctx, toks))
  {
    PassKeeps(ctx, ValueRef, toks);
    var t1 := Rewritten(ctx, ValueRef, toks);
    PassKeeps(ctx, SnapRef(Services), t1);
    var t2 := Rewritten(ctx, SnapRef(Services), t1);
    PassKeeps(ctx, SnapRef(Packages), t2);
    PassKeeps(ctx, SnapRef(Databases), Rewritten(ctx, SnapRef(Packages), t2));
    SettledIsPlain(ctx, toks);
    PlainText(ctx, Settled(ctx, toks));
  }

  predicate KnownFor(ctx: Context, p: Pattern, toks: seq<Tok>) {
    forall i :: 0 <= i < |toks| && Owns(p, toks[i]) ==> Known(ctx, p, CapOf(toks[i]))
  }

  lemma {:induction false} KnownForCons(ctx: Context, p: Pattern, toks: seq<Tok>)
    requires toks != []
    ensures KnownFor(ctx, p, toks)
      <==> (Owns(p, toks[0]) ==> Known(ctx, p, CapOf(toks[0]))) && KnownFor(ctx, p, toks[1..])
  {
    var rest := toks[1..];
    assert forall i :: 0 < i < |toks| ==> toks[i] == rest[i - 1];
    assert forall i :: 0 <= i < |rest| ==> rest[i] == toks[i + 1];
  }

  lemma {:induction false} MissingIff(ctx: Context, p: Pattern, toks: seq<Tok>)
    ensures Missing(ctx, p, OwnCaps(p, toks)) == [] <==> KnownFor(ctx, p, toks)
  {
    if toks != [] {
      MissingIff(ctx, p, toks[1..]);
      KnownForCons(ctx, p, toks);
      var rest := OwnCaps(p, toks[1..]);
      assert Owns(p, toks[0]) ==> OwnCaps(p, toks)[1..] == rest;
      assert !Owns(p, toks[0]) ==> OwnCaps(p, toks) == rest;
    }
  }

  // Validation reports something exactly when some placeholder is undefined.
  lemma {:induction false} ValidateIff(ctx: Context, toks: seq<Tok>)
    requires AllWellFormed(toks)
    ensures Validate(ctx, Print(toks)) == [] <==> AllKnown(ctx, toks)
  {
    var f := (c: Cap) => "";
    PassOnTokens(ValueRef, f, toks);
    MissingIff(ctx, ValueRef, toks);
    PassOnTokens(SnapRef(Services), f, toks);
    MissingIff(ctx, SnapRef(Services), toks);
    PassOnTokens(SnapRef(Packages), f, toks);
    MissingIff(ctx, SnapRef(Packages), toks);
    PassOnTokens(SnapRef(Databases), f, toks);
    MissingIff(ctx, SnapRef(Databases), toks);
    KnownByPattern(ctx, toks);
  }

  lemma {:induction false} KnownByPattern(ctx: Context, toks: seq<Tok>)
    ensures AllKnown(ctx, toks) <==>
      && KnownFor(ctx, ValueRef, toks) && KnownFor(ctx, SnapRef(Services), toks)
      && KnownFor(ctx, SnapRef(Packages), toks) && KnownFor(ctx, SnapRef(Databases), toks)
  {
    if
      && KnownFor(ctx, ValueRef, toks) && KnownFor(ctx, SnapRef(Services), toks)
      && KnownFor(ctx, SnapRef(Packages), toks) && KnownFor(ctx, SnapRef(Databases), toks)
    {
      forall i | 0 <= i < |toks| && !toks[i].Raw? ensures Known(ctx, PatternOf(toks[i]), CapOf(toks[i])) {
        assert Owns(PatternOf(toks[i]), toks[i]);
      }
    }
  }

  /** Validation followed by four passes is one simultaneous substitution: it fails exactly
      when some placeholder is undefined, and otherwise gives the meaning of the template. */
  lemma {:induction false} RenderIsSimultaneous(ctx: Context, toks: seq<Tok>)
    requires InertContext(ctx) && AllWellFormed(toks)
    ensures RenderTemplate(ctx, Print(toks)).Ok? <==> AllKnown(ctx, toks)
    ensures AllKnown(ctx, toks) ==> RenderTemplate(ctx, Print(toks)) == Ok(Denote(ctx, toks))
  {
    ValidateIff(ctx, toks);
    if AllKnown(ctx, toks) {
      FourPassesSettle(ctx, toks);
    }
  }

  // ── the same in terms of the values and the snapshot ─────────────────────

  lemma {:induction false} ValText(w1: string, key: string, w2: string, w3: string)
    ensures "{{" + (w1 + (key + (w2 + ("" + (w3 + "}}"))))) == "{{" + w1 + key + w2 + w3 + "}}"
  {
  }

  lemma {:induction false} FilteredText(w1: string, key: string, w2: string, f: string, w3: string)
    ensures "{{" + (w1 + (key + (w2 + (f + (w3 + "}}"))))) == "{{" + w1 + key + w2 + f + w3 + "}}"
  {
  }

  lemma {:induction false} SnapText(w1: string, head: string, id: string, w2: string)
    ensures "{{" + (w1 + (head + (id + ("\"]" + (w2 + "}}"))))) == "{{" + w1 + head + id + "\"]" + w2 + "}}"
  {
  }

  function SnapHead(shelf: Shelf): string {
    match shelf
    case Services => "services[\""
    case Packages => "packages[\""
    case Databases => "databases[\""
  }

  /** How a placeholder is written. */
  lemma {:induction false} WrittenAs(w1: string, key: string, w2: string, w: string, w3: string, shelf: Shelf)
    ensures PrintTok(Val(w1, key, w2, None, w3)) == "{{" + w1 + key + w2 + w3 + "}}"
    ensures PrintTok(Val(w1, key, w2, Some(w), w3)) == "{{" + w1 + key + w2 + ("|" + w + "b64encode") + w3 + "}}"
    ensures PrintTok(Snap(w1, shelf, key, w2)) == "{{" + w1 + SnapHead(shelf) + key + "\"]" + w2 + "}}"
  {
    ValText(w1, key, w2, w3);
    FilteredText(w1, key, w2, "|" + w + "b64encode", w3);
    SnapText(w1, SnapHead(shelf), key, w2);
    assert ShelfName(shelf) + "[\"" == SnapHead(shelf);
  }

  // The first entry with this id has this version.
  predicate Released(entries: seq<Entry>, id: string, version: string) {
    exists i :: 0 <= i < |entries| && entries[i] == Entry(id, version) && forall j :: 0 <= j < i ==> entries[j].id != id
  }

  // What is put for a value that is given, awaits its secret, or awaits its command.
  predicate Shows(v: ResolvedValue, text: string) {
    match v
    case Concrete(given) => text == given
    case Vault(key) => text == "vault(" + key + ")"
    case Shell(cmd) => text == "shell(" + cmd + ")"
  }

  // text is what a token is rendered to.
  ghost predicate Stands(ctx: Context, t: Tok, text: string) {
    match t
    case Raw(s) => text == s
    case Val(_, key, _, filter, _) =>
      && key in ctx.values
      && (if filter.None? then Shows(ctx.values[key], text)
          else exists plain :: Shows(ctx.values[key], plain) && text == ctx.b64(plain))
    case Snap(_, Services, id, _) => Released(ctx.snap.services, id, text)
    case Snap(_, Packages, id, _) => Released(ctx.snap.packages, id, text)
    case Snap(_, Databases, id, _) => Released(ctx.snap.databases, id, text)
  }

  ghost predicate Defined(ctx: Context, t: Tok) {
    exists text :: Stands(ctx, t, text)
  }

  function Glue(texts: seq<string>): string {
    if texts == [] then "" else texts[0] + Glue(texts[1..])
  }

  lemma {:induction false} VersionIsReleased(entries: seq<Entry>, id: string, version: string)
    ensures Released(entries, id, version) <==> VersionOf(entries, id) == Some(version)
  {
    if entries != [] {
      var rest := entries[1..];
      VersionIsReleased(rest, id, version);
      assert forall i :: 0 <= i < |rest| ==> rest[i] == entries[i + 1];
      assert entries[0].id == id ==> (Released(entries, id, version) <==> entries[0] == Entry(id, version));
      if entries[0].id != id && Released(rest, id, version) {
        var i :| 0 <= i < |rest| && rest[i] == Entry(id, version) && forall j :: 0 <= j < i ==> rest[j].id != id;
        assert entries[i + 1] == rest[i] && forall j :: 0 < j < i + 1 ==> entries[j] == rest[j - 1];
      }
    }
  }

  lemma {:induction false} KnownStands(ctx: Context, t: Tok, text: string)
    requires !t.Raw?
    ensures Stands(ctx, t, text) <==> Known(ctx, PatternOf(t), CapOf(t)) && text == Replacement(ctx, PatternOf(t), CapOf(t))
  {
    if t.Val? {
      if t.key in ctx.values {
        assert Shows(ctx.values[t.key], TemplateStr(ctx.values[t.key]));
      }
    } else {
      VersionIsReleased(ShelfOf(ctx.snap, t.shelf), t.id, text);
    }
  }

  lemma {:induction false} KnownIsDefined(ctx: Context, toks: seq<Tok>)
    ensures AllKnown(ctx, toks) <==> forall i :: 0 <= i < |toks| ==> Defined(ctx, toks[i])
  {
    forall i | 0 <= i < |toks|
      ensures Defined(ctx, toks[i]) <==> toks[i].Raw? || Known(ctx, PatternOf(toks[i]), CapOf(toks[i]))
    {
      var t := toks[i];
      if t.Raw? {
        assert Stands(ctx, t, t.s);
      } else {
        forall text { KnownStands(ctx, t, text); }
        assert Known(ctx, PatternOf(t), CapOf(t)) ==> Stands(ctx, t, Replacement(ctx, PatternOf(t), CapOf(t)));
      }
    }
  }

  lemma {:induction false} DenoteStands(ctx: Context, toks: seq<Tok>) returns (texts: seq<string>)
    requires AllKnown(ctx, toks)
    ensures |texts| == |toks| && Denote(ctx, toks) == Glue(texts)
    ensures forall i :: 0 <= i < |toks| ==> Stands(ctx, toks[i], texts[i])
  {
    texts := [];
    if toks != [] {
      var t, rest := toks[0], toks[1..];
      assert forall i :: 0 <= i < |rest| ==> rest[i] == toks[i + 1];
      var others := DenoteStands(ctx, rest);
      var text := if t.Raw? then t.s else Replacement(ctx, PatternOf(t), CapOf(t));
      if !t.Raw? { KnownStands(ctx, t, text); }
      texts := [text] + others;
      assert texts[1..] == others;
    }
  }

  /** A template is refused exactly when it names a value that is not there, or a service, package or database that
      is not in that list of the snapshot. Otherwise it is rendered token by token: a value as given, its secret or
      command still to be filled in, or encoded; a service, package or database as the version of the first entry with
      that id. */
  lemma {:induction false} RendersAsWritten(ctx: Context, toks: seq<Tok>) returns (texts: seq<string>)
    requires InertContext(ctx) && AllWellFormed(toks)
    ensures RenderTemplate(ctx, Print(toks)).Ok? <==> forall i :: 0 <= i < |toks| ==> Defined(ctx, toks[i])
    ensures RenderTemplate(ctx, Print(toks)).Ok? ==>
      && |texts| == |toks| && (forall i :: 0 <= i < |toks| ==> Stands(ctx, toks[i], texts[i]))
      && RenderTemplate(ctx, Print(toks)) == Ok(Glue(texts))
  {
    RenderIsSimultaneous(ctx, toks);
    KnownIsDefined(ctx, toks);
    texts := [];
    if AllKnown(ctx, toks) {
      texts := DenoteStands(ctx, toks);
    }
  }

  /** Nothing that any of the four patterns matches survives rendering. */
  lemma {:induction false} NoPlaceholderSurvives(ctx: Context, toks: seq<Tok>, p: Pattern)
    requires InertContext(ctx) && AllWellFormed(toks) && AllKnown(ctx, toks) && Braced(p)
    ensures var r := RenderTemplate(ctx, Print(toks)); r.Ok? && Captures(p, r.value) == []
  {
    RenderIsSimultaneous(ctx, toks);
    FourPassesSettle(ctx, toks);
    SettledIsPlain(ctx, toks);
    PassOnTokens(p, c => "", Settled(ctx, toks));
    NoOwnCaps(p, Settled(ctx, toks));
  }

  lemma NoOwnCaps(p: Pattern, toks: seq<Tok>)
    requires forall i :: 0 <= i < |toks| ==> toks[i].Raw?
    ensures OwnCaps(p, toks) == []
  {
  }

  // A value that itself opens a snapshot reference.
  const SLY: string := "{{services[\"s\"]}}"
  const SLY_SNAP: Tok := Snap("", Services, "s", "")
  const SLY_VAL: Tok := Val("", "K", "", None, "")

  lemma {:induction false} SlyText()
    ensures Print([SLY_SNAP]) == SLY && Print([Raw(SLY)]) == SLY
  {
    assert Body(SLY_SNAP) == "services[\"s\"]}}";
  }

  lemma {:induction false} OneTok(ctx: Context, p: Pattern, t: Tok)
    requires Braced(p) && WellFormed(t)
    ensures Pass(ctx, p, Print([t])) == Print([Rewrite(p, Filler(ctx, p), t)])
  {
    PassOnTokens(p, Filler(ctx, p), [t]);
    assert RewriteAll(p, Filler(ctx, p), [t]) == [Rewrite(p, Filler(ctx, p), t)];
  }

  /** A placeholder that a value brings in and that is not defined is left to the fallbacks of the passes: nothing for a
      service, package or database, and the bare key in braces for a value. */
  lemma {:induction false} UndefinedFallsBack(ctx: Context, t: Tok)
    requires WellFormed(t) && !t.Raw? && !Defined(ctx, t)
    ensures Pass(ctx, PatternOf(t), Print([t])) == if t.Snap? then "" else "{{" + t.key + "}}"
  {
    OneTok(ctx, PatternOf(t), t);
    KnownIsDefined(ctx, [t]);
    assert Print([Rewrite(PatternOf(t), Filler(ctx, PatternOf(t)), t)]) == Replacement(ctx, PatternOf(t), CapOf(t)) + "";
    if t.Snap? && VersionOf(ShelfOf(ctx.snap, t.shelf), t.id).Some? {
      KnownStands(ctx, t, VersionOf(ShelfOf(ctx.snap, t.shelf), t.id).value);
    }
    if t.Val? && t.key in ctx.values {
      KnownStands(ctx, t, Replacement(ctx, PatternOf(t), CapOf(t)));
    }
  }

  /** Without the condition on values the law fails: a value may itself open a placeholder
      that a later pass then replaces. */
  lemma {:induction false} ValueOpeningPlaceholderIsReplaced(b64: string -> string)
    ensures
      var ctx := Context(map["K" := Concrete(SLY)], Snapshot([Entry("s", "1")], [], []), b64);
      && AllWellFormed([SLY_VAL]) && AllKnown(ctx, [SLY_VAL])
      && FourPasses(ctx, Print([SLY_VAL])) == "1" && Denote(ctx, [SLY_VAL]) == SLY
  {
    var ctx := Context(map["K" := Concrete(SLY)], Snapshot([Entry("s", "1")], [], []), b64);
    SlyText();
    OneTok(ctx, ValueRef, SLY_VAL);
    OneTok(ctx, SnapRef(Services), SLY_SNAP);
    OneTok(ctx, SnapRef(Packages), Raw("1"));
    OneTok(ctx, SnapRef(Databases), Raw("1"));
  }
}
