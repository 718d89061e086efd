/** When the staged rendering of module Staging is the direct one for every vault: exactly when no literal text reads as
    a vault reference. */
module StagingExact {
  import opened Prelude
  import opened Text
  import opened Patterns
  import opened Template
  import opened Staging

  // ── a vault whose secrets are all empty ──────────────────────────────────

  const ERASE: Cap -> string := cap => ""

  lemma {:induction false} SameFill(f: Cap -> string, g: Cap -> string, s: string)
    requires forall c :: c in Captures(VaultRef, s) ==> f(c) == g(c)
    ensures ReplaceAll(VaultRef, f, s) == ReplaceAll(VaultRef, g, s)
    decreases |s|
  {
    if s != "" {
      var hit := Match(VaultRef, s);
      if hit.Some? {
        assert Captures(VaultRef, s)[0] == hit.value.cap;
        SameFill(f, g, hit.value.rest);
      } else {
        SameFill(f, g, s[1..]);
      }
    }
  }

  lemma {:induction false} SamePieces(f: Cap -> string, g: Cap -> string, xs: seq<Piece>)
    requires forall i :: 0 <= i < |xs| && xs[i].Secret? ==> f(Cap(xs[i].key, false)) == g(Cap(xs[i].key, false))
    ensures FillPieces(f, xs) == FillPieces(g, xs)
  {
    if xs != [] {
      assert forall i :: 0 <= i < |xs| - 1 ==> xs[1..][i] == xs[i + 1];
      SamePieces(f, g, xs[1..]);
    }
  }

  function Erased(s: string): string {
    ReplaceAll(VaultRef, ERASE, s)
  }

  // Erasing x and xs leaves no more than their literals, and less if a literal reads as a reference.
  predicate Lighter(x: string, xs: seq<Piece>) {
    && |Erased(x + PrintPieces(xs))| <= |x + FillPieces(ERASE, xs)|
    && (!Closed(x, xs) ==> |Erased(x + PrintPieces(xs))| < |x + FillPieces(ERASE, xs)|)
  }

  lemma {:induction false} MissLightens(x: string, xs: seq<Piece>)
    requires x != "" && (xs == [] || xs[0].Secret?) && MatchVault(x + PrintPieces(xs)) == None
    requires Lighter(x[1..], xs)
    ensures Lighter(x, xs)
  {
    var c, y := x[0], x[1..];
    assert x == [c] + y;
    RunOpens(x, xs);
    Assoc([c], y, PrintPieces(xs));
    Assoc([c], y, Hidden(xs));
    StepMiss(ERASE, c, y + PrintPieces(xs));
    StepMiss(ERASE, c, y + Hidden(xs));
  }

  lemma {:induction false} InsideLightens(x: string, xs: seq<Piece>) returns (z: string)
    requires VAULT <= x && ')' in x[|VAULT|..] && MatchVault(x + PrintPieces(xs)).Some?
    ensures |z| < |x| && Erased(x + PrintPieces(xs)) == Erased(z + PrintPieces(xs))
  {
    MatchInside(x, PrintPieces(xs));
    z := x[|VAULT|..][Find(x[|VAULT|..], ')').value + 1..];
    StepHit(ERASE, x + PrintPieces(xs), MatchVault(x + PrintPieces(xs)).value);
  }

  lemma {:induction false} SecretEnds(x: Piece, rest: string)
    requires x.Secret? && ')' !in x.key
    ensures var s := PrintPiece(x) + rest;
      ')' in s && s[0] == 'v' && s[Find(s, ')').value + 1..] == rest
  {
    var head := VAULT + x.key;
    SecretText(x, rest);
    FindAt(head, ')', rest);
    assert PrintPiece(x) + rest == head + [')'] + rest;
    assert (head + [')'] + rest)[|head| + 1..] == rest;
  }

  lemma {:induction false} AcrossLightens(x: string, xs: seq<Piece>)
    requires Printable(xs) && VAULT <= x && ')' !in x[|VAULT|..] && (xs == [] || xs[0].Secret?)
    requires MatchVault(x + PrintPieces(xs)).Some?
    ensures xs != [] && Erased(x + PrintPieces(xs)) == Erased("" + PrintPieces(xs[1..]))
  {
    assert x + "" == x;
    if xs != [] {
      var rest := PrintPieces(xs[1..]);
      SecretEnds(xs[0], rest);
      MatchAcross(x, PrintPieces(xs));
      StepHit(ERASE, x + PrintPieces(xs), MatchVault(x + PrintPieces(xs)).value);
      assert "" + rest == rest;
    }
  }

  lemma {:induction false} SecretLightens(xs: seq<Piece>)
    requires Printable(xs) && xs != [] && xs[0].Secret? && Lighter("", xs[1..])
    ensures Lighter("", xs)
  {
    var rest := PrintPieces(xs[1..]);
    var s := VAULT + xs[0].key + ")" + rest;
    assert "" + PrintPieces(xs) == s && "" + rest == rest;
    MatchSecret(xs[0].key, rest);
    StepHit(ERASE, s, Hit(Cap(xs[0].key, false), rest));
    HiddenTail(xs);
  }

  lemma {:induction false} AlwaysLighter(x: string, xs: seq<Piece>)
    requires Printable(xs)
    ensures Lighter(x, xs)
    decreases |xs|, |x|, 1
  {
    if xs != [] && xs[0].Lit? {
      LitMerges(ERASE, x, xs);
      AlwaysLighter(x + xs[0].s, xs[1..]);
    } else if x != "" {
      RunLightens(x, xs);
    } else if xs != [] {
      AlwaysLighter("", xs[1..]);
      SecretLightens(xs);
    }
  }

  lemma {:induction false} RunLightens(x: string, xs: seq<Piece>)
    requires Printable(xs) && x != "" && (xs == [] || xs[0].Secret?)
    ensures Lighter(x, xs)
    decreases |xs|, |x|, 0
  {
    RunOpens(x, xs);
    if MatchVault(x + PrintPieces(xs)).None? {
      AlwaysLighter(x[1..], xs);
      MissLightens(x, xs);
    } else if ')' in x[|VAULT|..] {
      var z := InsideLightens(x, xs);
      AlwaysLighter(z, xs);
    } else {
      AcrossLightens(x, xs);
      AlwaysLighter("", xs[1..]);
    }
  }

  // ── filling, for every vault ─────────────────────────────────────────────

  function KeysOf(caps: seq<Cap>): set<string> {
    set c | c in caps :: SecretKey(c)
  }

  function Hollow(keys: set<string>): map<string, string> {
    map k | k in keys :: ""
  }

  lemma {:induction false} NoneAbsent(vault: map<string, string>, caps: seq<Cap>)
    requires KeysOf(caps) <= vault.Keys
    ensures Absent(vault, caps) == []
  {
    if caps != [] {
      assert SecretKey(caps[0]) in KeysOf(caps);
      NoneAbsent(vault, caps[1..]);
    }
  }

  // substitute_vault fails exactly when a secret is absent, and otherwise replaces the secrets and nothing else.
  predicate FillsRight(vault: map<string, string>, xs: seq<Piece>) {
    var r := SubstituteVault(PrintPieces(xs), vault);
    (r.Ok? <==> AllPresent(vault, xs)) && (r.Ok? ==> r.value == FillPieces(Unseal(vault), xs))
  }

  lemma {:induction false} NotClosedFails(xs: seq<Piece>) returns (vault: map<string, string>)
    requires Printable(xs) && !Closed("", xs)
    ensures AllPresent(vault, xs) && !FillsRight(vault, xs)
  {
    var text := PrintPieces(xs);
    var caps := Captures(VaultRef, text);
    vault := Hollow(KeysOf(caps) + set i | 0 <= i < |xs| && xs[i].Secret? :: Trim(xs[i].key));
    NoneAbsent(vault, caps);
    forall c | c in caps ensures Unseal(vault)(c) == "" {
      assert SecretKey(c) in KeysOf(caps);
    }
    SameFill(Unseal(vault), ERASE, text);
    SamePieces(Unseal(vault), ERASE, xs);
    AlwaysLighter("", xs);
    assert "" + text == text && "" + FillPieces(ERASE, xs) == FillPieces(ERASE, xs);
  }

  /** Filling does so for every vault if and only if no literal text reads as a reference. */
  lemma {:induction false} FillIff(xs: seq<Piece>)
    requires Printable(xs)
    ensures (forall vault :: FillsRight(vault, xs)) <==> Closed("", xs)
  {
    if Closed("", xs) {
      forall vault ensures FillsRight(vault, xs) { SubstituteOnPieces(vault, xs); }
    } else {
      var vault := NotClosedFails(xs);
    }
  }

  // ── staging, for every vault ─────────────────────────────────────────────

  // Plan and rollout together fail exactly when a reference or a needed secret is missing, and otherwise give the
  // direct rendering with the secrets.
  predicate StagesRight(ctx: Context, vault: map<string, string>, toks: seq<Tok>) {
    var r := RenderThenFill(ctx, vault, Print(toks));
    (r.Ok? <==> AllKnown(ctx, toks) && SecretsPresent(ctx, vault, toks)) && (r.Ok? ==> r.value == Denote(Opened(ctx, vault), toks))
  }

  lemma {:induction false} StagesAsFills(ctx: Context, vault: map<string, string>, toks: seq<Tok>)
    requires InertContext(ctx) && AllWellFormed(toks) && SimpleSecrets(ctx, toks) && AllKnown(ctx, toks)
    ensures StagesRight(ctx, vault, toks) <==> FillsRight(vault, PiecesOf(ctx, toks))
  {
    RenderIsSimultaneous(ctx, toks);
    DenoteIsPieces(ctx, toks);
    SecretsByToken(ctx, vault, toks);
    if SecretsPresent(ctx, vault, toks) {
      FillIsOpened(ctx, vault, toks);
    }
  }

  /** A template whose references are all defined is staged faithfully for every vault if and only if none of its
      literals, values and versions reads as a vault reference where it stands. */
  lemma {:induction false} StagedIff(ctx: Context, toks: seq<Tok>)
    requires InertContext(ctx) && AllWellFormed(toks) && SimpleSecrets(ctx, toks)
    ensures (forall vault :: StagesRight(ctx, vault, toks)) <==> (AllKnown(ctx, toks) ==> Closed("", PiecesOf(ctx, toks)))
  {
    if AllKnown(ctx, toks) {
      forall vault ensures StagesRight(ctx, vault, toks) <==> FillsRight(vault, PiecesOf(ctx, toks)) {
        StagesAsFills(ctx, vault, toks);
      }
      FillIff(PiecesOf(ctx, toks));
    } else {
      RenderIsSimultaneous(ctx, toks);
    }
  }
}
