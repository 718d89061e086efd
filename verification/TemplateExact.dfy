/** When the four passes of module Template are one simultaneous substitution: exactly when no value can begin a
    snapshot placeholder. A text that can is completed to one by harmless text, and the passes that replace it take
    opening braces away, which none of them ever adds. */
module TemplateExact {
  import opened Prelude
  import opened Text
  import opened Patterns
  import opened Template

  // ── texts that can begin a snapshot placeholder ──────────────────────────

  function Head(shelf: Shelf): string {
    ShelfName(shelf) + "[\""
  }

  predicate BeginsClose(d: string) {
    d == "" || d == "}" || CLOSE <= d
  }

  predicate BeginsEnd(c: string) {
    c == "" || (c[0] == ']' && BeginsClose(TrimStart(c[1..])))
  }

  predicate BeginsId(b: string) {
    var q := Find(b, '"');
    q.None? || (q.value != 0 && BeginsEnd(b[q.value + 1..]))
  }

  predicate BeginsHead(a: string, shelf: Shelf) {
    a <= Head(shelf) || (Head(shelf) <= a && BeginsId(a[|Head(shelf)|..]))
  }

  // With some text behind it, s opens a placeholder of that shelf.
  predicate Begins(s: string, shelf: Shelf) {
    s == "{" || (OPEN <= s && BeginsHead(TrimStart(s[2..]), shelf))
  }

  // No part of s up to its end does.
  predicate Calm(s: string) {
    forall i, shelf :: 0 <= i < |s| ==> !Begins(s[i..], shelf)
  }

  // ── nothing else opens one ───────────────────────────────────────────────

  lemma {:induction false} TrimThen(u: string, x: string)
    ensures TrimStart(u + x) == if TrimStart(u) == "" then TrimStart(x) else TrimStart(u) + x
  {
    if u == "" {
      assert u + x == x;
    } else {
      assert (u + x)[0] == u[0] && (u + x)[1..] == u[1..] + x;
      if IsSpace(u[0]) {
        TrimThen(u[1..], x);
      }
    }
  }

  lemma {:induction false} CloseBegins(d: string, x: string)
    requires CLOSE <= d + x
    ensures BeginsClose(d)
  {
    var s := d + x;
    assert s[0] == '}' && s[1] == '}';
    if |d| == 1 {
      assert d[0] == s[0] && d == [d[0]];
    } else if 2 <= |d| {
      assert d[0] == s[0] && d[1] == s[1];
    }
  }

  lemma {:induction false} EndBegins(c: string, x: string)
    requires c + x != "" && (c + x)[0] == ']' && CLOSE <= TrimStart((c + x)[1..])
    ensures BeginsEnd(c)
  {
    if c != "" {
      assert (c + x)[0] == c[0] && (c + x)[1..] == c[1..] + x;
      TrimThen(c[1..], x);
      if TrimStart(c[1..]) != "" {
        CloseBegins(TrimStart(c[1..]), x);
      }
    }
  }

  lemma {:induction false} IdBegins(b: string, x: string)
    requires SnapTail(b + x).Some?
    ensures BeginsId(b)
  {
    if '"' in b {
      FindBefore(b, '"', x);
      var q := Find(b, '"').value;
      var s := b + x;
      var c := b[q + 1..];
      assert c + x == s[q + 1..] && s[q..][1] == ']' && s[q + 1] == ']';
      assert (c + x)[1..] == s[q + 2..];
      EndBegins(c, x);
    }
  }

  lemma {:induction false} HeadBegins(a: string, shelf: Shelf, x: string)
    requires SnapBody(a + x, shelf).Some?
    ensures BeginsHead(a, shelf)
  {
    var n := |Head(shelf)|;
    var s := a + x;
    assert s[..n] == Head(shelf);
    if |a| <= n {
      assert a == s[..|a|] == Head(shelf)[..|a|];
    } else {
      assert a[..n] == s[..n] && s[n..] == a[n..] + x;
      IdBegins(a[n..], x);
    }
  }

  lemma {:induction false} MatchBegins(s: string, shelf: Shelf, x: string)
    requires s != "" && MatchSnap(s + x, shelf).Some?
    ensures Begins(s, shelf)
  {
    var t := s + x;
    assert t[0] == '{' && t[1] == '{' && t[0] == s[0];
    if |s| == 1 {
      assert s == [s[0]];
    } else {
      assert s[1] == t[1] && t[2..] == s[2..] + x;
      TrimThen(s[2..], x);
      if TrimStart(s[2..]) != "" {
        HeadBegins(TrimStart(s[2..]), shelf, x);
      }
    }
  }

  // ── whatever begins one can be completed ─────────────────────────────────

  const FRESH: string := "n\"]}}"

  function CloseRest(d: string): string {
    if d == "" then "}}" else if d == "}" then "}" else ""
  }

  function EndRest(c: string): string {
    if c == "" then "]}}" else CloseRest(TrimStart(c[1..]))
  }

  function IdRest(b: string): string {
    var q := Find(b, '"');
    if q.None? then FRESH else EndRest(b[q.value + 1..])
  }

  function HeadRest(a: string, shelf: Shelf): string
    requires BeginsHead(a, shelf)
  {
    if a <= Head(shelf) then Head(shelf)[|a|..] + FRESH else IdRest(a[|Head(shelf)|..])
  }

  function Rest(s: string, shelf: Shelf): string
    requires Begins(s, shelf)
  {
    if s == "{" then "{" + (Head(shelf) + FRESH) else HeadRest(TrimStart(s[2..]), shelf)
  }

  predicate Smooth(x: string) {
    NoBrace(x) && (x == "" || !IsSpace(x[0]))
  }

  lemma {:induction false} TrimSmooth(u: string, x: string)
    requires Smooth(x)
    ensures TrimStart(u + x) == TrimStart(u) + x
  {
    TrimThen(u, x);
    assert "" + x == x;
  }

  lemma {:induction false} CloseCompletes(d: string)
    requires BeginsClose(d)
    ensures Smooth(CloseRest(d)) && CLOSE <= d + CloseRest(d)
  {
  }

  lemma {:induction false} EndCompletes(c: string)
    requires BeginsEnd(c)
    ensures var s := c + EndRest(c); s != "" && s[0] == ']' && CLOSE <= TrimStart(s[1..])
    ensures Smooth(EndRest(c))
  {
    if c == "" {
      assert c + EndRest(c) == "]}}" && "]}}"[1..] == "}}";
    } else {
      var d := TrimStart(c[1..]);
      CloseCompletes(d);
      TrimSmooth(c[1..], CloseRest(d));
      assert (c + EndRest(c))[1..] == c[1..] + CloseRest(d);
    }
  }

  lemma {:induction false} TailCloses(name: string, u: string)
    requires name != "" && '"' !in name && u != "" && u[0] == ']' && CLOSE <= TrimStart(u[1..])
    ensures SnapTail(name + ['"'] + u).Some?
  {
    var s := name + ['"'] + u;
    FindAt(name, '"', u);
    assert s[|name|..] == ['"'] + u && s[|name| + 2..] == u[1..];
    assert (['"'] + u)[0] == '"' && (['"'] + u)[1] == ']';
  }

  lemma {:induction false} FreshCompletes(b: string)
    requires '"' !in b
    ensures SnapTail(b + FRESH).Some?
  {
    var u := "]}}";
    assert u[1..] == "}}";
    TailCloses(b + "n", u);
    assert b + FRESH == b + "n" + ['"'] + u;
  }

  lemma {:induction false} Regroup(b: string, q: nat, x: string)
    requires q < |b|
    ensures b + x == b[..q] + [b[q]] + (b[q + 1..] + x)
  {
  }

  lemma {:induction false} IdCompletes(b: string)
    requires BeginsId(b)
    ensures SnapTail(b + IdRest(b)).Some? && Smooth(IdRest(b))
  {
    var q := Find(b, '"');
    if q.None? {
      FreshCompletes(b);
    } else {
      var c := b[q.value + 1..];
      EndCompletes(c);
      TailCloses(b[..q.value], c + EndRest(c));
      Regroup(b, q.value, EndRest(c));
    }
  }

  lemma {:induction false} HeadSmooth(shelf: Shelf)
    ensures forall i :: 0 <= i < |Head(shelf)| ==> Head(shelf)[i] != '{' && !IsSpace(Head(shelf)[i])
    ensures Smooth(Head(shelf) + FRESH)
  {
    assert (Head(shelf) + FRESH)[0] == Head(shelf)[0];
  }

  lemma {:induction false} BodyOf(shelf: Shelf, b: string)
    ensures SnapBody(Head(shelf) + b, shelf) == SnapTail(b)
  {
    assert (Head(shelf) + b)[|Head(shelf)|..] == b;
  }

  lemma {:induction false} PrefixRest(a: string, h: string, x: string)
    requires a <= h
    ensures a + (h[|a|..] + x) == h + x
  {
  }

  lemma {:induction false} PrefixSplit(h: string, a: string)
    requires h <= a
    ensures a == h + a[|h|..]
  {
  }

  lemma {:induction false} FreshBody(shelf: Shelf)
    ensures SnapBody(Head(shelf) + FRESH, shelf).Some?
  {
    FreshCompletes("");
    assert "" + FRESH == FRESH;
    BodyOf(shelf, FRESH);
  }

  lemma {:induction false} HeadCompletes(a: string, shelf: Shelf)
    requires BeginsHead(a, shelf)
    ensures SnapBody(a + HeadRest(a, shelf), shelf).Some?
  {
    if a <= Head(shelf) {
      PrefixRest(a, Head(shelf), FRESH);
      FreshBody(shelf);
    } else {
      var b := a[|Head(shelf)|..];
      IdCompletes(b);
      PrefixSplit(Head(shelf), a);
      Assoc(Head(shelf), b, IdRest(b));
      BodyOf(shelf, b + IdRest(b));
    }
  }

  lemma {:induction false} HeadRestSmooth(a: string, shelf: Shelf)
    requires BeginsHead(a, shelf)
    ensures Smooth(HeadRest(a, shelf))
  {
    if a <= Head(shelf) {
      HeadSmooth(shelf);
    } else {
      IdCompletes(a[|Head(shelf)|..]);
    }
  }

  lemma {:induction false} OpenOf(u: string, shelf: Shelf)
    ensures MatchSnap(OPEN + u, shelf) == SnapBody(TrimStart(u), shelf)
  {
    assert (OPEN + u)[2..] == u;
  }

  lemma {:induction false} BodyOpens(shelf: Shelf, body: string)
    requires SnapBody(body, shelf).Some? && Smooth(body)
    ensures MatchSnap("{" + ("{" + body), shelf).Some?
  {
    assert "{" + "{" == OPEN;
    Assoc("{", "{", body);
    OpenOf(body, shelf);
    assert body + "" == body;
    TrimSmooth("", body);
    assert "" + body == body;
  }

  lemma {:induction false} BraceCompletes(shelf: Shelf)
    ensures MatchSnap("{" + ("{" + (Head(shelf) + FRESH)), shelf).Some? && Inert("{" + (Head(shelf) + FRESH))
  {
    HeadSmooth(shelf);
    FreshBody(shelf);
    BodyOpens(shelf, Head(shelf) + FRESH);
    NoBraceBehind(Head(shelf) + FRESH);
  }

  lemma {:induction false} NoBraceBehind(body: string)
    requires body != "" && NoBrace(body)
    ensures Inert("{" + body)
  {
  }

  /** A text that begins a placeholder becomes one with harmless text behind it. */
  lemma {:induction false} Completes(s: string, shelf: Shelf)
    requires Begins(s, shelf)
    ensures MatchSnap(s + Rest(s, shelf), shelf).Some? && Inert(Rest(s, shelf))
  {
    if s == "{" {
      BraceCompletes(shelf);
    } else {
      var u := s[2..];
      var x := HeadRest(TrimStart(u), shelf);
      HeadCompletes(TrimStart(u), shelf);
      HeadRestSmooth(TrimStart(u), shelf);
      TrimSmooth(u, x);
      assert s == OPEN + u;
      Assoc(OPEN, u, x);
      OpenOf(u + x, shelf);
    }
  }

  // ── calm values pass through ─────────────────────────────────────────────

  lemma {:induction false} CalmLater(s: string)
    requires s != "" && Calm(s)
    ensures Calm(s[1..])
  {
    assert forall i :: 0 <= i < |s| - 1 ==> s[1..][i..] == s[i + 1..];
  }

  lemma {:induction false} InertIsCalm(s: string)
    requires Inert(s)
    ensures Calm(s)
  {
    forall i, shelf | 0 <= i < |s| ensures !Begins(s[i..], shelf) {
      if s[i] == '{' {
        assert s[i..][1] == s[i + 1];
      }
    }
  }

  lemma {:induction false} CalmHead(shelf: Shelf, x: string, rest: string)
    requires x != "" && Calm(x)
    ensures Match(SnapRef(shelf), x + rest) == None
  {
    assert x[0..] == x && !Begins(x[0..], shelf);
    if MatchSnap(x + rest, shelf).Some? {
      MatchBegins(x, shelf, rest);
    }
  }

  lemma {:induction false} ScanCalm(shelf: Shelf, f: Cap -> string, x: string, rest: string)
    requires Calm(x)
    ensures ReplaceAll(SnapRef(shelf), f, x + rest) == x + ReplaceAll(SnapRef(shelf), f, rest)
  {
    if x == "" {
      assert x + rest == rest;
    } else {
      CalmHead(shelf, x, rest);
      CalmLater(x);
      ScanCalm(shelf, f, x[1..], rest);
      assert (x + rest)[1..] == x[1..] + rest;
      PrefixSplit([x[0]], x);
      Assoc([x[0]], x[1..], ReplaceAll(SnapRef(shelf), f, rest));
    }
  }

  predicate AllCalm(toks: seq<Tok>) {
    forall i :: 0 <= i < |toks| ==> if toks[i].Raw? then Calm(toks[i].s) else WellFormed(toks[i])
  }

  // One pass over literals that are merely calm.
  lemma {:induction false} PassCalm(shelf: Shelf, f: Cap -> string, toks: seq<Tok>)
    requires AllCalm(toks)
    ensures ReplaceAll(SnapRef(shelf), f, Print(toks)) == Print(RewriteAll(SnapRef(shelf), f, toks))
  {
    if toks != [] {
      var p := SnapRef(shelf);
      assert forall i :: 0 <= i < |toks| - 1 ==> toks[1..][i] == toks[i + 1];
      PassCalm(shelf, f, toks[1..]);
      if toks[0].Raw? {
        ScanCalm(shelf, f, toks[0].s, Print(toks[1..]));
      } else {
        ScanTok(p, f, toks[0], Print(toks[1..]));
      }
    }
  }

  predicate NoBraceVersions(entries: seq<Entry>) {
    forall i :: 0 <= i < |entries| ==> NoBrace(entries[i].version)
  }

  predicate PlainVersions(ctx: Context) {
    forall shelf :: NoBraceVersions(ShelfOf(ctx.snap, shelf))
  }

  // Every value a placeholder can name, plain and encoded.
  predicate CalmValues(ctx: Context) {
    forall k :: k in ctx.values && ValidKey(k) ==>
      Calm(TemplateStr(ctx.values[k])) && Calm(ctx.b64(TemplateStr(ctx.values[k])))
  }

  lemma {:induction false} VersionPlain(entries: seq<Entry>, id: string)
    requires NoBraceVersions(entries)
    ensures VersionOf(entries, id).Some? ==> NoBrace(VersionOf(entries, id).value)
  {
    if entries != [] && entries[0].id != id {
      assert forall i :: 0 <= i < |entries| - 1 ==> entries[1..][i] == entries[i + 1];
      VersionPlain(entries[1..], id);
    }
  }

  lemma {:induction false} VersionFills(ctx: Context, shelf: Shelf, cap: Cap)
    requires PlainVersions(ctx)
    ensures NoBrace(Replacement(ctx, SnapRef(shelf), cap))
  {
    VersionPlain(ShelfOf(ctx.snap, shelf), cap.name);
  }

  lemma {:induction false} ValuePass(ctx: Context, toks: seq<Tok>)
    requires CalmValues(ctx) && AllWellFormed(toks) && AllKnown(ctx, toks)
    ensures AllCalm(Rewritten(ctx, ValueRef, toks))
  {
    forall i | 0 <= i < |toks| && Rewritten(ctx, ValueRef, toks)[i].Raw?
      ensures Calm(Rewritten(ctx, ValueRef, toks)[i].s)
    {
      if toks[i].Raw? { InertIsCalm(toks[i].s); }
    }
  }

  lemma {:induction false} ShelfPass(ctx: Context, shelf: Shelf, toks: seq<Tok>)
    requires PlainVersions(ctx) && AllCalm(toks)
    ensures AllCalm(Rewritten(ctx, SnapRef(shelf), toks))
    ensures Pass(ctx, SnapRef(shelf), Print(toks)) == Print(Rewritten(ctx, SnapRef(shelf), toks))
    ensures Denote(ctx, Rewritten(ctx, SnapRef(shelf), toks)) == Denote(ctx, toks)
  {
    PassCalm(shelf, Filler(ctx, SnapRef(shelf)), toks);
    DenoteKept(ctx, SnapRef(shelf), toks);
    forall i | 0 <= i < |toks| && Owns(SnapRef(shelf), toks[i])
      ensures Calm(Rewritten(ctx, SnapRef(shelf), toks)[i].s)
    {
      VersionFills(ctx, shelf, CapOf(toks[i]));
      InertIsCalm(Rewritten(ctx, SnapRef(shelf), toks)[i].s);
    }
  }

  // Rendering substitutes every placeholder of every template at once.
  ghost predicate AlwaysSimultaneous(ctx: Context) {
    forall toks :: AllWellFormed(toks) && AllKnown(ctx, toks) ==> RenderTemplate(ctx, Print(toks)) == Ok(Denote(ctx, toks))
  }

  lemma {:induction false} CalmIsEnough(ctx: Context, toks: seq<Tok>)
    requires PlainVersions(ctx) && CalmValues(ctx) && AllWellFormed(toks) && AllKnown(ctx, toks)
    ensures FourPasses(ctx, Print(toks)) == Denote(ctx, toks)
  {
    PassOnTokens(ValueRef, Filler(ctx, ValueRef), toks);
    ValuePass(ctx, toks);
    DenoteKept(ctx, ValueRef, toks);
    var t1 := Rewritten(ctx, ValueRef, toks);
    ShelfPass(ctx, Services, t1);
    var t2 := Rewritten(ctx, SnapRef(Services), t1);
    ShelfPass(ctx, Packages, t2);
    ShelfPass(ctx, Databases, Rewritten(ctx, SnapRef(Packages), t2));
    SettledIsPlain(ctx, toks);
    PlainText(ctx, Settled(ctx, toks));
  }

  // ── any other value breaks some template ─────────────────────────────────

  function Braces(s: string): nat {
    if s == "" then 0 else (if s[0] == '{' then 1 else 0) + Braces(s[1..])
  }

  lemma {:induction false} BracesAppend(a: string, b: string)
    ensures Braces(a + b) == Braces(a) + Braces(b)
  {
    if a == "" {
      assert a + b == b;
    } else {
      assert (a + b)[0] == a[0] && (a + b)[1..] == a[1..] + b;
      BracesAppend(a[1..], b);
    }
  }

  lemma {:induction false} NoBraces(s: string)
    requires NoBrace(s)
    ensures Braces(s) == 0
  {
    if s != "" {
      assert s[0] in s;
      NoBraces(s[1..]);
    }
  }

  lemma {:induction false} BracesSuffix(s: string, n: nat)
    requires n <= |s|
    ensures Braces(s[n..]) <= Braces(s)
  {
    assert s == s[..n] + s[n..];
    BracesAppend(s[..n], s[n..]);
  }

  lemma {:induction false} BracesTrim(s: string)
    ensures Braces(TrimStart(s)) <= Braces(s)
  {
    if s != "" && IsSpace(s[0]) {
      BracesTrim(s[1..]);
    }
  }

  lemma {:induction false} TailBraces(b: string)
    requires SnapTail(b).Some?
    ensures Braces(SnapTail(b).value.rest) <= Braces(b)
  {
    var q := Find(b, '"').value;
    var c := TrimStart(b[q + 2..]);
    BracesSuffix(b, q + 2);
    BracesTrim(b[q + 2..]);
    BracesSuffix(c, 2);
  }

  // A match takes its two opening braces away.
  lemma {:induction false} HitBraces(s: string, shelf: Shelf)
    requires MatchSnap(s, shelf).Some?
    ensures Braces(MatchSnap(s, shelf).value.rest) < Braces(s)
  {
    var a := TrimStart(s[2..]);
    assert s[0] == '{' && s[1..][1..] == s[2..];
    BracesSuffix(s[1..], 1);
    BracesTrim(s[2..]);
    BracesSuffix(a, |Head(shelf)|);
    TailBraces(a[|Head(shelf)|..]);
  }

  lemma {:induction false} PassBraces(ctx: Context, shelf: Shelf, s: string)
    requires PlainVersions(ctx)
    ensures Braces(Pass(ctx, SnapRef(shelf), s)) <= Braces(s)
    ensures if Captures(SnapRef(shelf), s) == [] then Pass(ctx, SnapRef(shelf), s) == s
            else Braces(Pass(ctx, SnapRef(shelf), s)) < Braces(s)
    decreases |s|
  {
    var p := SnapRef(shelf);
    if s != "" {
      var hit := Match(p, s);
      if hit.Some? {
        HitBraces(s, shelf);
        PassBraces(ctx, shelf, hit.value.rest);
        VersionFills(ctx, shelf, hit.value.cap);
        NoBraces(Replacement(ctx, p, hit.value.cap));
        BracesAppend(Replacement(ctx, p, hit.value.cap), Pass(ctx, p, hit.value.rest));
      } else {
        PassBraces(ctx, shelf, s[1..]);
        BracesAppend([s[0]], Pass(ctx, p, s[1..]));
        BracesAppend([s[0]], s[1..]);
        assert [s[0]] + s[1..] == s;
      }
    }
  }

  lemma {:induction false} MatchIsCaptured(p: Pattern, s: string, i: nat)
    requires i < |s| && Match(p, s[i..]).Some?
    ensures Captures(p, s) != []
    decreases |s|
  {
    if i == 0 {
      assert s[0..] == s;
    } else if Match(p, s).None? {
      assert s[1..][i - 1..] == s[i..];
      MatchIsCaptured(p, s[1..], i - 1);
    }
  }

  // The three snapshot passes change any text that holds a match of one of them.
  lemma {:induction false} ThreePassesChange(ctx: Context, shelf: Shelf, s: string)
    requires PlainVersions(ctx) && Captures(SnapRef(shelf), s) != []
    ensures Pass(ctx, SnapRef(Databases), Pass(ctx, SnapRef(Packages), Pass(ctx, SnapRef(Services), s))) != s
  {
    var s1 := Pass(ctx, SnapRef(Services), s);
    var s2 := Pass(ctx, SnapRef(Packages), s1);
    PassBraces(ctx, Services, s);
    PassBraces(ctx, Packages, s1);
    PassBraces(ctx, Databases, s2);
  }

  lemma {:induction false} PrintTwo(v: string, x: string)
    ensures Print([Raw(v), Raw(x)]) == v + x
  {
    assert [Raw(v), Raw(x)][1..] == [Raw(x)] && [Raw(x)][1..] == [];
    assert Print([Raw(x)]) == x + "" == x;
  }

  lemma {:induction false} DenoteTwo(ctx: Context, t: Tok, x: string)
    requires !t.Raw?
    ensures Denote(ctx, [t, Raw(x)]) == Replacement(ctx, PatternOf(t), CapOf(t)) + x
  {
    assert [t, Raw(x)][1..] == [Raw(x)] && [Raw(x)][1..] == [];
    assert Denote(ctx, [Raw(x)]) == x + "" == x;
  }

  lemma {:induction false} ValueThenText(ctx: Context, t: Tok, x: string)
    requires t.Val? && WellFormed(t) && Inert(x)
    ensures Pass(ctx, ValueRef, Print([t, Raw(x)])) == Replacement(ctx, ValueRef, CapOf(t)) + x
  {
    PassOnTokens(ValueRef, Filler(ctx, ValueRef), [t, Raw(x)]);
    var v := Replacement(ctx, ValueRef, CapOf(t));
    assert Rewritten(ctx, ValueRef, [t, Raw(x)]) == [Raw(v), Raw(x)];
    PrintTwo(v, x);
  }

  lemma {:induction false} HeldMatch(v: string, x: string, i: nat, shelf: Shelf)
    requires i < |v| && MatchSnap(v[i..] + x, shelf).Some?
    ensures Captures(SnapRef(shelf), v + x) != []
  {
    assert (v + x)[i..] == v[i..] + x;
    MatchIsCaptured(SnapRef(shelf), v + x, i);
  }

  lemma {:induction false} TwoFit(ctx: Context, t: Tok, x: string)
    requires t.Val? && WellFormed(t) && Inert(x) && t.key in ctx.values
    ensures AllWellFormed([t, Raw(x)]) && AllKnown(ctx, [t, Raw(x)])
  {
  }

  lemma {:induction false} TwoDiffer(ctx: Context, t: Tok, x: string, shelf: Shelf)
    requires PlainVersions(ctx) && t.Val? && WellFormed(t) && Inert(x)
    requires Captures(SnapRef(shelf), Replacement(ctx, ValueRef, CapOf(t)) + x) != []
    ensures FourPasses(ctx, Print([t, Raw(x)])) != Denote(ctx, [t, Raw(x)])
  {
    ValueThenText(ctx, t, x);
    DenoteTwo(ctx, t, x);
    ThreePassesChange(ctx, shelf, Replacement(ctx, ValueRef, CapOf(t)) + x);
  }

  lemma {:induction false} NotAlways(ctx: Context, toks: seq<Tok>)
    requires AllWellFormed(toks) && AllKnown(ctx, toks) && FourPasses(ctx, Print(toks)) != Denote(ctx, toks)
    ensures !AlwaysSimultaneous(ctx)
  {
  }

  // A template that names a value and completes what the value begins.
  lemma {:induction false} NotCalmFails(ctx: Context, t: Tok, v: string, i: nat, shelf: Shelf)
    requires PlainVersions(ctx) && t.Val? && WellFormed(t) && t.key in ctx.values
    requires v == Replacement(ctx, ValueRef, CapOf(t)) && i < |v| && Begins(v[i..], shelf)
    ensures !AlwaysSimultaneous(ctx)
  {
    var x := Rest(v[i..], shelf);
    Completes(v[i..], shelf);
    HeldMatch(v, x, i, shelf);
    TwoFit(ctx, t, x);
    TwoDiffer(ctx, t, x, shelf);
    NotAlways(ctx, [t, Raw(x)]);
  }

  /** With versions that hold no opening brace, every template is rendered as one simultaneous substitution if and
      only if no value that a placeholder can name, plain or encoded, has an end that can begin a snapshot
      placeholder. */
  lemma {:induction false} SimultaneousIff(ctx: Context)
    requires PlainVersions(ctx)
    ensures AlwaysSimultaneous(ctx) <==> CalmValues(ctx)
  {
    if CalmValues(ctx) {
      forall toks | AllWellFormed(toks) && AllKnown(ctx, toks)
        ensures RenderTemplate(ctx, Print(toks)) == Ok(Denote(ctx, toks))
      {
        ValidateIff(ctx, toks);
        CalmIsEnough(ctx, toks);
      }
    } else {
      var k :| k in ctx.values && ValidKey(k) &&
        !(Calm(TemplateStr(ctx.values[k])) && Calm(ctx.b64(TemplateStr(ctx.values[k]))));
      var v := TemplateStr(ctx.values[k]);
      if !Calm(v) {
        var i: nat, shelf :| i < |v| && Begins(v[i..], shelf);
        NotCalmFails(ctx, Val("", k, "", None, ""), v, i, shelf);
      } else {
        var i: nat, shelf :| i < |ctx.b64(v)| && Begins(ctx.b64(v)[i..], shelf);
        NotCalmFails(ctx, Val("", k, "", Some(""), ""), ctx.b64(v), i, shelf);
      }
    }
  }
}
