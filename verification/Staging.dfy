/** Two-stage rendering: src/plan.rs leaves vault(KEY) in build/, src/rollout.rs fills it in
    later, and src/verbose_replace.rs does both at once. */
module Staging {
  import opened Prelude
  import opened Text
  import opened Patterns
  import opened Template

  // ── vault substitution ───────────────────────────────────────────────────

  function SecretKey(cap: Cap): string {
    Trim(cap.name)
  }

  function Unseal(vault: map<string, string>): Cap -> string {
    cap => if SecretKey(cap) in vault then vault[SecretKey(cap)] else VAULT + SecretKey(cap) + ")"
  }

  function Absent(vault: map<string, string>, caps: seq<Cap>): seq<string> {
    if caps == [] then []
    else (if SecretKey(caps[0]) in vault then [] else [SecretKey(caps[0])]) + Absent(vault, caps[1..])
  }

  // substitute_vault, the same function in rollout.rs, verbose_replace.rs and install_helm_charts.rs
  function SubstituteVault(content: string, vault: map<string, string>): Result<string, seq<string>> {
    var errors := Absent(vault, Captures(VaultRef, content));
    if errors != [] then Err(errors) else Ok(ReplaceAll(VaultRef, Unseal(vault), content))
  }

  // ── rendered text as literals and secrets ────────────────────────────────

  datatype Piece = Lit(s: string) | Secret(key: string)

  function PrintPiece(x: Piece): string {
    if x.Lit? then x.s else VAULT + x.key + ")"
  }

  function PrintPieces(xs: seq<Piece>): string {
    if xs == [] then "" else PrintPiece(xs[0]) + PrintPieces(xs[1..])
  }

  // The text with every secret replaced by one that nobody can mistake for a reference.
  function Hidden(xs: seq<Piece>): string {
    if xs == [] then "" else (if xs[0].Lit? then xs[0].s else "#)") + Hidden(xs[1..])
  }

  function FillPieces(f: Cap -> string, xs: seq<Piece>): string {
    if xs == [] then ""
    else (if xs[0].Lit? then xs[0].s else f(Cap(xs[0].key, false))) + FillPieces(f, xs[1..])
  }

  function SecretCaps(xs: seq<Piece>): seq<Cap> {
    if xs == [] then []
    else (if xs[0].Lit? then [] else [Cap(xs[0].key, false)]) + SecretCaps(xs[1..])
  }

  predicate Printable(xs: seq<Piece>) {
    forall i :: 0 <= i < |xs| && xs[i].Secret? ==> xs[i].key != "" && ')' !in xs[i].key
  }

  // No literal text reads as a reference, not even together with what follows it.
  predicate Closed(x: string, xs: seq<Piece>) {
    Captures(VaultRef, x + Hidden(xs)) == []
  }

  lemma {:induction false} MatchSecret(key: string, rest: string)
    requires key != "" && ')' !in key
    ensures MatchVault(VAULT + key + ")" + rest) == Some(Hit(Cap(key, false), rest))
  {
    var s := VAULT + key + ")" + rest;
    var b := key + [')'] + rest;
    assert s == VAULT + b;
    assert s[|VAULT|..] == b;
    FindAt(key, ')', rest);
    assert b[..|key|] == key && b[|key| + 1..] == rest;
  }

  lemma {:induction false} SameHead(x: string, y: string, c: char)
    requires x != "" && y != "" && y[0] == c && c !in VAULT[1..]
    ensures VAULT <= x + y <==> VAULT <= x
  {
    var s := x + y;
    if |VAULT| <= |x| {
      assert s[..|VAULT|] == x[..|VAULT|];
    } else {
      assert s[|x|] == c && VAULT[1..][|x| - 1] == VAULT[|x|];
    }
  }

  lemma {:induction false} SecretText(x: Piece, rest: string)
    requires x.Secret?
    ensures var s := PrintPiece(x) + rest; s != "" && s[0] == 'v' && ')' in s
    ensures var s := "#)" + rest; s != "" && s[0] == '#' && ')' in s
  {
    var s := PrintPiece(x) + rest;
    assert s[0] == VAULT[0] && s[|VAULT| + |x.key|] == ')';
    assert ("#)" + rest)[1] == ')';
  }

  lemma {:induction false} Behind6(x: string, y: string)
    requires VAULT <= x
    ensures VAULT <= x + y && (x + y)[|VAULT|..] == x[|VAULT|..] + y
  {
  }

  // The reference that opens in x ends in x.
  lemma {:induction false} MatchInside(x: string, y: string)
    requires VAULT <= x && ')' in x[|VAULT|..]
    ensures var b := x[|VAULT|..]; var q := Find(b, ')').value;
      MatchVault(x + y) == if q == 0 then None else Some(Hit(Cap(b[..q], false), b[q + 1..] + y))
  {
    var b := x[|VAULT|..];
    Behind6(x, y);
    FindBefore(b, ')', y);
    var q := Find(b, ')').value;
    assert (b + y)[..q] == b[..q] && (b + y)[q + 1..] == b[q + 1..] + y;
  }

  // Or it ends behind x.
  lemma {:induction false} MatchAcross(x: string, y: string)
    requires VAULT <= x && ')' !in x[|VAULT|..] && ')' in y && y[0] != ')'
    ensures MatchVault(x + y).Some? && MatchVault(x + y).value.rest == y[Find(y, ')').value + 1..]
  {
    var b := x[|VAULT|..];
    Behind6(x, y);
    FindBehind(b, ')', y);
    var q := Find(y, ')').value;
    assert q != 0 && (b + y)[|b| + q + 1..] == y[q + 1..];
  }

  lemma {:induction false} FindBehind(b: string, c: char, y: string)
    requires c !in b && c in y
    ensures Find(b + y, c) == Some(|b| + Find(y, c).value)
  {
    if b == "" {
      assert b + y == y;
    } else {
      assert (b + y)[0] == b[0] && (b + y)[1..] == b[1..] + y;
      FindBehind(b[1..], c, y);
    }
  }

  // Whether a literal run before a secret or the end opens a reference can be seen with the secrets hidden.
  lemma {:induction false} RunOpens(x: string, xs: seq<Piece>)
    requires x != "" && (xs == [] || xs[0].Secret?)
    ensures MatchVault(x + PrintPieces(xs)).Some? <==> MatchVault(x + Hidden(xs)).Some?
    ensures MatchVault(x + PrintPieces(xs)).Some? ==> VAULT <= x
  {
    if xs == [] {
      assert x + "" == x;
    } else {
      SecretText(xs[0], PrintPieces(xs[1..]));
      SecretText(xs[0], Hidden(xs[1..]));
      assert VAULT[1..] == "ault(";
      SameHead(x, PrintPieces(xs), 'v');
      SameHead(x, Hidden(xs), '#');
      if VAULT <= x {
        if ')' in x[|VAULT|..] {
          MatchInside(x, PrintPieces(xs));
          MatchInside(x, Hidden(xs));
        } else {
          MatchAcross(x, PrintPieces(xs));
          MatchAcross(x, Hidden(xs));
        }
      }
    }
  }

  lemma {:induction false} StepHit(f: Cap -> string, s: string, hit: Hit)
    requires s != "" && MatchVault(s) == Some(hit)
    ensures ReplaceAll(VaultRef, f, s) == f(hit.cap) + ReplaceAll(VaultRef, f, hit.rest)
    ensures Captures(VaultRef, s) == [hit.cap] + Captures(VaultRef, hit.rest)
  {
    assert Match(VaultRef, s) == Some(hit);
  }

  lemma {:induction false} StepMiss(f: Cap -> string, c: char, s: string)
    requires MatchVault([c] + s) == None
    ensures ReplaceAll(VaultRef, f, [c] + s) == [c] + ReplaceAll(VaultRef, f, s)
    ensures Captures(VaultRef, [c] + s) == Captures(VaultRef, s)
  {
    assert Match(VaultRef, [c] + s) == None;
    assert ([c] + s)[1..] == s;
  }

  lemma {:induction false} ClosedLater(c: char, y: string, xs: seq<Piece>)
    requires Closed([c] + y, xs)
    ensures MatchVault([c] + y + Hidden(xs)) == None && Closed(y, xs)
  {
    Assoc([c], y, Hidden(xs));
    assert ([c] + (y + Hidden(xs)))[1..] == y + Hidden(xs);
    assert Match(VaultRef, [c] + (y + Hidden(xs))) == None;
  }

  lemma {:induction false} NoVault(c: char, s: string)
    requires c != 'v'
    ensures MatchVault([c] + s) == None
  {
    assert ([c] + s)[0] != VAULT[0];
  }

  lemma {:induction false} HiddenSecret(rest: string)
    ensures Captures(VaultRef, "#)" + rest) == Captures(VaultRef, rest)
  {
    assert "#)" + rest == ['#'] + ([')'] + rest);
    NoVault('#', [')'] + rest);
    NoVault(')', rest);
    StepMiss(c => "", '#', [')'] + rest);
    StepMiss(c => "", ')', rest);
  }

  // Filling x followed by xs finds exactly the secrets of xs.
  predicate FillLaw(f: Cap -> string, x: string, xs: seq<Piece>) {
    && ReplaceAll(VaultRef, f, x + PrintPieces(xs)) == x + FillPieces(f, xs)
    && Captures(VaultRef, x + PrintPieces(xs)) == SecretCaps(xs)
  }

  lemma {:induction false} LitMerges(f: Cap -> string, x: string, xs: seq<Piece>)
    requires xs != [] && xs[0].Lit?
    ensures x + PrintPieces(xs) == x + xs[0].s + PrintPieces(xs[1..])
    ensures x + FillPieces(f, xs) == x + xs[0].s + FillPieces(f, xs[1..])
    ensures x + Hidden(xs) == x + xs[0].s + Hidden(xs[1..])
    ensures SecretCaps(xs) == SecretCaps(xs[1..])
  {
    Assoc(x, xs[0].s, PrintPieces(xs[1..]));
    Assoc(x, xs[0].s, FillPieces(f, xs[1..]));
    Assoc(x, xs[0].s, Hidden(xs[1..]));
  }

  lemma {:induction false} LawSteps(f: Cap -> string, c: char, y: string, xs: seq<Piece>)
    requires MatchVault([c] + y + PrintPieces(xs)) == None && FillLaw(f, y, xs)
    ensures FillLaw(f, [c] + y, xs)
  {
    Assoc([c], y, PrintPieces(xs));
    Assoc([c], y, FillPieces(f, xs));
    StepMiss(f, c, y + PrintPieces(xs));
  }

  lemma {:induction false} LawTakes(f: Cap -> string, xs: seq<Piece>)
    requires Printable(xs) && xs != [] && xs[0].Secret? && FillLaw(f, "", xs[1..])
    ensures FillLaw(f, "", xs)
  {
    var rest := PrintPieces(xs[1..]);
    var s := VAULT + xs[0].key + ")" + rest;
    assert "" + PrintPieces(xs) == s && "" + FillPieces(f, xs) == FillPieces(f, xs);
    assert "" + rest == rest && "" + FillPieces(f, xs[1..]) == FillPieces(f, xs[1..]);
    MatchSecret(xs[0].key, rest);
    StepHit(f, s, Hit(Cap(xs[0].key, false), rest));
  }

  /** Filling finds exactly the secrets when no literal text reads as a reference. */
  lemma {:induction false} FillFindsSecrets(f: Cap -> string, x: string, xs: seq<Piece>)
    requires Printable(xs) && Closed(x, xs)
    ensures FillLaw(f, x, xs)
    decreases |xs|, |x|, 1
  {
    if xs != [] && xs[0].Lit? {
      LitMerges(f, x, xs);
      FillFindsSecrets(f, x + xs[0].s, xs[1..]);
    } else if x != "" {
      FillWalks(f, x, xs);
    } else if xs != [] {
      HiddenTail(xs);
      FillFindsSecrets(f, "", xs[1..]);
      LawTakes(f, xs);
    }
  }

  lemma {:induction false} HiddenTail(xs: seq<Piece>)
    requires xs != [] && xs[0].Secret?
    ensures Closed("", xs) <==> Closed("", xs[1..])
  {
    HiddenSecret(Hidden(xs[1..]));
    assert "" + Hidden(xs) == "#)" + Hidden(xs[1..]) && "" + Hidden(xs[1..]) == Hidden(xs[1..]);
  }

  lemma {:induction false} FillWalks(f: Cap -> string, x: string, xs: seq<Piece>)
    requires x != "" && (xs == [] || xs[0].Secret?)
    requires Printable(xs) && Closed(x, xs)
    ensures FillLaw(f, x, xs)
    decreases |xs|, |x|, 0
  {
    var c, y := x[0], x[1..];
    assert x == [c] + y;
    RunOpens(x, xs);
    ClosedLater(c, y, xs);
    FillFindsSecrets(f, y, xs);
    LawSteps(f, c, y, xs);
  }

  // ── staged rendering against direct rendering ────────────────────────────

  function PieceOf(ctx: Context, t: Tok): Piece {
    if t.Raw? then Lit(t.s)
    else if t.Val? && t.filter.None? && t.key in ctx.values && ctx.values[t.key].Vault?
    then Secret(ctx.values[t.key].key)
    else Lit(Replacement(ctx, PatternOf(t), CapOf(t)))
  }

  function PiecesOf(ctx: Context, toks: seq<Tok>): (r: seq<Piece>)
    ensures |r| == |toks|
    ensures forall i :: 0 <= i < |r| ==> r[i] == PieceOf(ctx, toks[i])
  {
    if toks == [] then [] else [PieceOf(ctx, toks[0])] + PiecesOf(ctx, toks[1..])
  }

  // Every vault key occurring in the values, replaced by what the vault holds for it.
  function Opened(ctx: Context, vault: map<string, string>): Context {
    ctx.(values := map k | k in ctx.values :: OpenedValue(ctx.values[k], vault))
  }

  function OpenedValue(v: ResolvedValue, vault: map<string, string>): ResolvedValue {
    if v.Vault? && Trim(v.key) in vault then Concrete(vault[Trim(v.key)]) else v
  }

  // The vault key a placeholder needs, if any.
  predicate NeedsSecret(ctx: Context, t: Tok) {
    t.Val? && t.key in ctx.values && ctx.values[t.key].Vault?
  }

  predicate SecretsPresent(ctx: Context, vault: map<string, string>, toks: seq<Tok>) {
    forall i :: 0 <= i < |toks| && NeedsSecret(ctx, toks[i]) ==> Trim(ctx.values[toks[i].key].key) in vault
  }

  // No placeholder encodes a secret, and every needed vault key can be told from what surrounds it.
  predicate SimpleSecrets(ctx: Context, toks: seq<Tok>) {
    forall i :: 0 <= i < |toks| && NeedsSecret(ctx, toks[i]) ==>
      && toks[i].filter.None?
      && ctx.values[toks[i].key].key != "" && ')' !in ctx.values[toks[i].key].key
  }

  // What a caller can check beforehand.
  predicate Stageable(ctx: Context, toks: seq<Tok>) {
    InertContext(ctx) && AllWellFormed(toks) && SimpleSecrets(ctx, toks) && Closed("", PiecesOf(ctx, toks))
  }

  datatype Failure = ShellFailed | BadRefs(refs: seq<RefError>) | NoSecret(keys: seq<string>)

  // What reaches kubectl for one template: the plan's rendering, then the rollout's filling.
  function RenderThenFill(ctx: Context, vault: map<string, string>, content: string): Result<string, Failure> {
    match RenderTemplate(ctx, content)
    case Err(refs) => Err(BadRefs(refs))
    case Ok(text) => Fill(text, vault)
  }

  function Fill(text: string, vault: map<string, string>): Result<string, Failure> {
    match SubstituteVault(text, vault)
    case Err(keys) => Err(NoSecret(keys))
    case Ok(filled) => Ok(filled)
  }

  lemma {:induction false} DenoteIsPieces(ctx: Context, toks: seq<Tok>)
    ensures Denote(ctx, toks) == PrintPieces(PiecesOf(ctx, toks))
  {
    if toks != [] {
      DenoteIsPieces(ctx, toks[1..]);
      assert PiecesOf(ctx, toks)[1..] == PiecesOf(ctx, toks[1..]);
    }
  }

  predicate AllPresent(vault: map<string, string>, xs: seq<Piece>) {
    forall i :: 0 <= i < |xs| && xs[i].Secret? ==> Trim(xs[i].key) in vault
  }

  lemma {:induction false} SecretCapsTail(xs: seq<Piece>)
    requires xs != []
    ensures xs[0].Lit? ==> SecretCaps(xs) == SecretCaps(xs[1..])
    ensures xs[0].Secret? ==>
      && SecretCaps(xs) != [] && SecretCaps(xs)[0] == Cap(xs[0].key, false)
      && SecretCaps(xs)[1..] == SecretCaps(xs[1..])
  {
  }

  lemma {:induction false} AllPresentTail(vault: map<string, string>, xs: seq<Piece>)
    requires xs != []
    ensures AllPresent(vault, xs) <==> (xs[0].Secret? ==> Trim(xs[0].key) in vault) && AllPresent(vault, xs[1..])
  {
    assert forall i :: 0 < i < |xs| ==> xs[i] == xs[1..][i - 1];
    assert forall i :: 0 <= i < |xs| - 1 ==> xs[1..][i] == xs[i + 1];
  }

  lemma {:induction false} AbsentIff(vault: map<string, string>, xs: seq<Piece>)
    ensures Absent(vault, SecretCaps(xs)) == [] <==> AllPresent(vault, xs)
  {
    if xs != [] {
      AbsentIff(vault, xs[1..]);
      SecretCapsTail(xs);
      AllPresentTail(vault, xs);
    }
  }

  lemma {:induction false} FillIsOpened(ctx: Context, vault: map<string, string>, toks: seq<Tok>)
    requires SecretsPresent(ctx, vault, toks)
    requires forall i :: 0 <= i < |toks| && NeedsSecret(ctx, toks[i]) ==> toks[i].filter.None?
    ensures FillPieces(Unseal(vault), PiecesOf(ctx, toks)) == Denote(Opened(ctx, vault), toks)
  {
    if toks != [] {
      assert forall i :: 0 <= i < |toks| - 1 ==> toks[1..][i] == toks[i + 1];
      FillIsOpened(ctx, vault, toks[1..]);
      assert PiecesOf(ctx, toks)[1..] == PiecesOf(ctx, toks[1..]);
      FillOneToken(ctx, vault, toks[0]);
    }
  }

  lemma {:induction false} FillOneToken(ctx: Context, vault: map<string, string>, t: Tok)
    requires NeedsSecret(ctx, t) ==> t.filter.None? && Trim(ctx.values[t.key].key) in vault
    ensures FillPieces(Unseal(vault), [PieceOf(ctx, t)]) == Denote(Opened(ctx, vault), [t])
  {
  }

  /** substitute_vault on text whose literals open no reference: it fails exactly when some
      secret is absent and otherwise replaces the secrets and nothing else. */
  lemma {:induction false} SubstituteOnPieces(vault: map<string, string>, xs: seq<Piece>)
    requires Printable(xs) && Closed("", xs)
    ensures SubstituteVault(PrintPieces(xs), vault).Ok? <==> AllPresent(vault, xs)
    ensures AllPresent(vault, xs) ==> SubstituteVault(PrintPieces(xs), vault) == Ok(FillPieces(Unseal(vault), xs))
  {
    var f := Unseal(vault);
    assert "" + PrintPieces(xs) == PrintPieces(xs);
    assert "" + FillPieces(f, xs) == FillPieces(f, xs);
    FillFindsSecrets(f, "", xs);
    AbsentIff(vault, xs);
  }

  /** Staging preserves meaning: leaving vault(KEY) in the rendered text and filling it in
      later fails exactly when a reference is undefined or a needed secret is absent, and
      otherwise gives the text of rendering directly with the vault's values. */
  lemma {:induction false} StagedIsDirect(ctx: Context, vault: map<string, string>, toks: seq<Tok>)
    requires Stageable(ctx, toks)
    ensures RenderThenFill(ctx, vault, Print(toks)).Ok? <==> AllKnown(ctx, toks) && SecretsPresent(ctx, vault, toks)
    ensures AllKnown(ctx, toks) && SecretsPresent(ctx, vault, toks)
      ==> RenderThenFill(ctx, vault, Print(toks)) == Ok(Denote(Opened(ctx, vault), toks))
  {
    RenderIsSimultaneous(ctx, toks);
    if AllKnown(ctx, toks) {
      DenoteIsPieces(ctx, toks);
      SubstituteOnPieces(vault, PiecesOf(ctx, toks));
      SecretsByToken(ctx, vault, toks);
      if SecretsPresent(ctx, vault, toks) {
        FillIsOpened(ctx, vault, toks);
      }
    }
  }

  lemma {:induction false} SecretsByToken(ctx: Context, vault: map<string, string>, toks: seq<Tok>)
    requires forall i :: 0 <= i < |toks| && NeedsSecret(ctx, toks[i]) ==> toks[i].filter.None?
    ensures SecretsPresent(ctx, vault, toks) <==> AllPresent(vault, PiecesOf(ctx, toks))
  {
    assert forall i :: 0 <= i < |toks| ==> (PiecesOf(ctx, toks)[i].Secret? <==> NeedsSecret(ctx, toks[i]));
  }

  lemma {:induction false} RenderOne(ctx: Context, k: string, filter: Option<string>)
    requires InertContext(ctx) && ValidKey(k) && k in ctx.values && (filter.Some? ==> AllSpace(filter.value))
    ensures RenderTemplate(ctx, Print([Val("", k, "", filter, "")]))
         == Ok(Replacement(ctx, ValueRef, Cap(k, filter.Some?)))
  {
    var t := Val("", k, "", filter, "");
    RenderIsSimultaneous(ctx, [t]);
    var value := Replacement(ctx, ValueRef, Cap(k, filter.Some?));
    assert [t][1..] == [] && Denote(ctx, [t][1..]) == "";
    assert Denote(ctx, [t]) == value + "" == value;
  }

  /** The filter condition is needed: a b64encode-d secret is encoded while still sealed, and
      nothing fills it in later, whatever the vault holds. */
  lemma {:induction false} FilteredSecretStaysSealed(ctx: Context, vault: map<string, string>, k: string)
    requires InertContext(ctx) && ValidKey(k) && k in ctx.values && ctx.values[k].Vault?
    requires Captures(VaultRef, ctx.b64(TemplateStr(ctx.values[k]))) == []
    ensures RenderThenFill(ctx, vault, Print([Val("", k, "", Some(""), "")]))
         == Ok(ctx.b64(TemplateStr(ctx.values[k])))
  {
    RenderOne(ctx, k, Some(""));
    PlainStays(vault, ctx.b64(TemplateStr(ctx.values[k])));
  }

  lemma {:induction false} PlainStays(vault: map<string, string>, text: string)
    requires Captures(VaultRef, text) == []
    ensures SubstituteVault(text, vault) == Ok(text)
  {
    var xs := [Lit(text)];
    assert xs[1..] == [] && text + "" == text;
    assert PrintPieces(xs) == text && Hidden(xs) == text && "" + text == text;
    SubstituteOnPieces(vault, xs);
    assert FillPieces(Unseal(vault), xs) == text + "";
  }

  /** So is the condition on keys: vault() with an empty key is no reference for the rollout
      and reaches the cluster as text. */
  lemma {:induction false} EmptyKeyStaysLiteral(ctx: Context, vault: map<string, string>, k: string)
    requires InertContext(ctx) && ValidKey(k) && k in ctx.values && ctx.values[k] == Vault("")
    ensures RenderThenFill(ctx, vault, Print([Val("", k, "", None, "")])) == Ok("vault()")
  {
    RenderOne(ctx, k, None);
    assert VAULT + "" + ")" == "vault()";
    assert "vault()"[|VAULT|..] == ")";
    EmptyVault(Unseal(vault));
  }

  lemma {:induction false} EmptyVault(f: Cap -> string)
    ensures ReplaceAll(VaultRef, f, "vault()") == "vault()" && Captures(VaultRef, "vault()") == []
  {
    assert "vault()" == ['v'] + "ault()";
    assert ("vault()")[|VAULT|..] == ")";
    StepMiss(f, 'v', "ault()");
    NoHeadNoMatch(f, "ault()");
  }

  lemma {:induction false} NoHeadNoMatch(f: Cap -> string, s: string)
    requires 'v' !in s
    ensures ReplaceAll(VaultRef, f, s) == s && Captures(VaultRef, s) == []
    decreases |s|
  {
    if s != "" {
      assert s[0] in s && s[0] != VAULT[0];
      assert s == [s[0]] + s[1..];
      StepMiss(f, s[0], s[1..]);
      NoHeadNoMatch(f, s[1..]);
    }
  }

  lemma {:induction false} OneAbsent(vault: map<string, string>, cap: Cap)
    requires SecretKey(cap) in vault
    ensures Absent(vault, [cap]) == []
  {
    assert [cap][1..] == [];
  }

  lemma {:induction false} FillsOne(vault: map<string, string>, key: string, rest: string)
    requires key != "" && ')' !in key && Trim(key) in vault && 'v' !in rest
    ensures SubstituteVault(VAULT + key + ")" + rest, vault) == Ok(vault[Trim(key)] + rest)
  {
    var text := VAULT + key + ")" + rest;
    var cap := Cap(key, false);
    MatchSecret(key, rest);
    StepHit(Unseal(vault), text, Hit(cap, rest));
    NoHeadNoMatch(Unseal(vault), rest);
    assert Captures(VaultRef, text) == [cap] + [] == [cap];
    OneAbsent(vault, cap);
    assert Unseal(vault)(cap) == vault[Trim(key)];
  }

  /** A closing parenthesis cuts a key short: the rollout fills in another secret. */
  lemma {:induction false} KeyWithParenIsCut(ctx: Context, vault: map<string, string>, k: string, head: string, tail: string)
    requires InertContext(ctx) && ValidKey(k) && k in ctx.values && ctx.values[k] == Vault(head + ")" + tail)
    requires head != "" && ')' !in head && 'v' !in tail && Trim(head) in vault
    ensures RenderThenFill(ctx, vault, Print([Val("", k, "", None, "")])) == Ok(vault[Trim(head)] + (tail + ")"))
  {
    RenderOne(ctx, k, None);
    CutText(head, tail);
    FillsOne(vault, head, tail + ")");
  }

  lemma {:induction false} CutText(head: string, tail: string)
    ensures VAULT + (head + ")" + tail) + ")" == VAULT + head + ")" + (tail + ")")
  {
  }

  lemma {:induction false} DenoteRaw(ctx: Context, text: string)
    ensures Print([Raw(text)]) == text && Denote(ctx, [Raw(text)]) == text
  {
    assert [Raw(text)][1..] == [] && text + "" == text;
  }

  /** Text that happens to read vault(KEY) is filled in as well, though it is no reference to a value. */
  lemma {:induction false} LiteralIsFilled(ctx: Context, vault: map<string, string>, key: string)
    requires InertContext(ctx) && key != "" && ')' !in key && Trim(key) in vault && Inert(VAULT + key + ")")
    ensures var toks := [Raw(VAULT + key + ")")];
      && RenderThenFill(ctx, vault, Print(toks)) == Ok(vault[Trim(key)])
      && Denote(Opened(ctx, vault), toks) == VAULT + key + ")"
  {
    var text := VAULT + key + ")";
    DenoteRaw(ctx, text);
    DenoteRaw(Opened(ctx, vault), text);
    RenderIsSimultaneous(ctx, [Raw(text)]);
    FillsOne(vault, key, "");
    assert text + "" == text && vault[Trim(key)] + "" == vault[Trim(key)];
  }
}
