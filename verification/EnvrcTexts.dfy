/** What the programs of module Envrc do to each line, in terms of the texts: what is forwarded, what a shell
    makes of it, and what the two readers take a line to say. */
module EnvrcTexts {
  import opened Prelude
  import opened Text
  import opened Patterns
  import opened Envrc

  // ── the writer ───────────────────────────────────────────────────────────

  predicate Word(c: char) {
    'a' <= c <= 'z' || 'A' <= c <= 'Z' || '0' <= c <= '9' || c == '_'
  }

  predicate Withheld(key: string) {
    || key == "REMOTE_SCRIPT" || key == "REMOTE_CAPABILITY" || key == "REMOTE_CLEANUP" || key == "EXTERNAL_EXECUTOR_URL"
    || key == "GINGER_AUTH_PATH" || key == "HOME" || key == "PATH" || key == "PWD" || key == "HOSTNAME" || key == "done"
    || "KUBERNETES_" <= key || "TEKTON_" <= key
  }

  /** A line of env is forwarded under the name in front of its first equals sign, with all that follows as its value,
      exactly when the name consists of word characters and is not withheld. */
  lemma {:induction false} ForwardsPairs(key: string, value: string)
    requires '=' !in key
    ensures Forwarded(key + "=" + value) ==
      if key != "" && (forall i :: 0 <= i < |key| ==> Word(key[i])) && !Withheld(key) then Some(Var(key, value)) else None
  {
    var line := key + "=" + value;
    FindAt(key, '=', value);
    assert line == key + ['='] + value;
    assert line[..|key|] == key && line[|key| + 1..] == value;
    SkipsAll(key);
  }

  lemma {:induction false} SkipsAll(key: string)
    ensures key in SKIP_VARS <==>
      || key == "REMOTE_SCRIPT" || key == "REMOTE_CAPABILITY" || key == "REMOTE_CLEANUP" || key == "EXTERNAL_EXECUTOR_URL"
      || key == "GINGER_AUTH_PATH" || key == "HOME" || key == "PATH" || key == "PWD" || key == "HOSTNAME" || key == "done"
  {
    assert SKIP_VARS[0] == "REMOTE_SCRIPT" && SKIP_VARS[1] == "REMOTE_CAPABILITY" && SKIP_VARS[2] == "REMOTE_CLEANUP";
    assert SKIP_VARS[3] == "EXTERNAL_EXECUTOR_URL" && SKIP_VARS[4] == "GINGER_AUTH_PATH" && SKIP_VARS[5] == "HOME";
    assert SKIP_VARS[6] == "PATH" && SKIP_VARS[7] == "PWD" && SKIP_VARS[8] == "HOSTNAME" && SKIP_VARS[9] == "done";
  }

  lemma {:induction false} CollectSnoc(found: seq<Option<Var>>, last: Option<Var>)
    ensures Collect(found + [last]) == AddTo(Collect(found), last)
  {
    CollectFront(found, last, |found|);
    assert (found + [last])[|found|] == last;
  }

  lemma {:induction false} CollectFront(found: seq<Option<Var>>, last: Option<Var>, n: nat)
    requires n <= |found|
    ensures CollectUpTo(found + [last], n) == CollectUpTo(found, n)
  {
    if n != 0 {
      CollectFront(found, last, n - 1);
      assert (found + [last])[n - 1] == found[n - 1];
    }
  }

  lemma {:induction false} ForwardedAllSnoc(lines: seq<string>, line: string)
    ensures ForwardedAll(lines + [line]) == ForwardedAll(lines) + [Forwarded(line)]
  {
    if lines == [] {
      assert lines + [line] == [line] && [line][1..] == [];
    } else {
      assert (lines + [line])[1..] == lines[1..] + [line];
      ForwardedAllSnoc(lines[1..], line);
    }
  }

  lemma {:induction false} EntriesOfSnoc(lines: seq<string>, line: string)
    ensures EntriesOf(lines + [line]) == EntriesOf(lines) + [EntryOf(line)]
  {
    if lines == [] {
      assert lines + [line] == [line] && [line][1..] == [];
    } else {
      assert (lines + [line])[1..] == lines[1..] + [line];
      EntriesOfSnoc(lines[1..], line);
    }
  }

  /** Lines are handled one after the other: each adds what it says behind what the lines before it gave, to the list
      of the writer as to that of the first reader. */
  lemma {:induction false} LinesInOrder(lines: seq<string>, line: string)
    ensures Exported([]) == [] && Exported(lines + [line]) == Exported(lines) + (if Forwarded(line).Some? then [Forwarded(line).value] else [])
    ensures Entries([]) == [] && Entries(lines + [line]) == Entries(lines) + (if EntryOf(line).Some? then [EntryOf(line).value] else [])
  {
    ForwardedAllSnoc(lines, line);
    CollectSnoc(ForwardedAll(lines), Forwarded(line));
    EntriesOfSnoc(lines, line);
    CollectSnoc(EntriesOf(lines), EntryOf(line));
  }

  /** The file written is one line for each variable, in order. */
  lemma {:induction false} FileInOrder(vars: seq<Var>, v: Var)
    ensures PrintVars([]) == "" && PrintVars(vars + [v]) == PrintVars(vars) + PrintVar(v) + "\n"
  {
    PrintVarsSnoc(vars, v);
    Assoc(PrintVars(vars), PrintVar(v), "\n");
  }

  // How a shell reads a word: single quotes keep what stands between them, a backslash outside keeps one character.
  function ShellWord(s: string, quoted: bool): Option<string>
    decreases |s|
  {
    if s == "" then (if quoted then None else Some(""))
    else if s[0] == '\'' then ShellWord(s[1..], !quoted)
    else if !quoted && s[0] == '\\' then
      (if |s| == 1 then None else Kept(s[1], ShellWord(s[2..], false)))
    else Kept(s[0], ShellWord(s[1..], quoted))
  }

  function Kept(c: char, rest: Option<string>): Option<string> {
    if rest.None? then None else Some([c] + rest.value)
  }

  lemma {:induction false} QuotedReads(value: string)
    ensures ShellWord(Escape(value) + "'", true) == Some(value)
  {
    var s := Escape(value) + "'";
    if value == "" {
      assert s == "'" && s[1..] == "";
    } else {
      var rest := Escape(value[1..]) + "'";
      QuotedReads(value[1..]);
      assert value == [value[0]] + value[1..];
      if value[0] == '\'' {
        var s1, s2 := "\\''" + rest, "'" + rest;
        assert s == "'" + s1 && s[1..] == s1;
        assert s1[0] == '\\' && s1[1] == '\'' && s1[2..] == s2;
        assert s2[1..] == rest;
        assert ShellWord(s2, false) == ShellWord(rest, true);
        assert ShellWord(s1, false) == Kept('\'', ShellWord(s2, false));
        assert ShellWord(s, true) == ShellWord(s1, false);
      } else {
        assert s == [value[0]] + rest;
        assert s[1..] == rest;
      }
    }
  }

  /** Every forwarded variable is written as an export that a shell reads back as it was, quotes included. */
  lemma {:induction false} ShellReadsBack(v: Var)
    ensures var head := "export " + v.name + "=";
      head <= PrintVar(v) && ShellWord(PrintVar(v)[|head|..], false) == Some(v.value)
  {
    var head := "export " + v.name + "=";
    var word := "'" + (Escape(v.value) + "'");
    assert PrintVar(v) == head + word;
    assert word[1..] == Escape(v.value) + "'";
    QuotedReads(v.value);
  }

  // ── the readers ──────────────────────────────────────────────────────────

  predicate Within(q: string, mark: char, v: string) {
    q == [mark] + v + [mark]
  }

  // v is q without a pair of quotes around it, if it has one.
  ghost predicate Bare(q: string, v: string) {
    || Within(q, '"', v) || Within(q, '\'', v)
    || (v == q && forall w :: !Within(q, '"', w) && !Within(q, '\'', w))
  }

  lemma {:induction false} QuotedIff(q: string, mark: char)
    ensures Quoted(q, mark) ==> Within(q, mark, q[1..|q| - 1])
    ensures forall w :: Within(q, mark, w) ==> Quoted(q, mark) && q[1..|q| - 1] == w
  {
    forall w | Within(q, mark, w) ensures Quoted(q, mark) && q[1..|q| - 1] == w {
      assert q[0] == mark && q[|q| - 1] == mark && q[1..|q| - 1] == w;
    }
  }

  lemma {:induction false} UnquoteIsBare(q: string)
    ensures Bare(q, Unquote(q)) && Bare(q, StripQuotes(q))
  {
    QuotedIff(q, '"');
    QuotedIff(q, '\'');
    UnquoteIsStrip(q);
  }

  // line is name, equals sign, value.
  predicate Splits(line: string, name: string, value: string) {
    '=' !in name && line == name + ['='] + value
  }

  lemma {:induction false} SplitIs(line: string)
    ensures forall name, value :: Splits(line, name, value) ==> SplitOnce(line, '=') == Some((name, value))
    ensures SplitOnce(line, '=').None? ==> '=' !in line
  {
    forall name, value | Splits(line, name, value) ensures SplitOnce(line, '=') == Some((name, value)) {
      SplitOnceAt(name, '=', value);
    }
  }

  // An entry of this name and quoted value, but for blanks; without a name there is none.
  ghost predicate EntryIs(v: Option<Var>, name: string, value: string) {
    if Trim(name) == "" then v == None else v.Some? && v.value.name == Trim(name) && Bare(Trim(value), v.value.value)
  }

  /** The first reader takes a line, apart from blanks around it, for an entry if it is export, a name, an equals sign and
      a value, and for nothing otherwise. */
  lemma {:induction false} EntryMeans(raw: string, rest: string)
    ensures !("export " <= Trim(raw)) ==> EntryOf(raw) == None
    ensures Trim(raw) == "export " + rest ==>
      && ('=' !in rest ==> EntryOf(raw) == None)
      && (forall name, value :: Splits(rest, name, value) ==> EntryIs(EntryOf(raw), name, value))
  {
    var line := Trim(raw);
    if line == "export " + rest {
      assert line[7..] == rest;
      assert EXPORT == "export " && line[0] == 'e';
      assert IsSpace(EXPORT[|EXPORT| - 1]) && !IsSpace(line[|line| - 1]);
      assert rest == "" ==> line == EXPORT;
      SamePair(rest);
      SplitIs(rest);
      forall name, value | Splits(rest, name, value) ensures EntryIs(EntryOf(raw), name, value) {
        UnquoteIsBare(Trim(value));
      }
    }
  }

  lemma {:induction false} AssignmentsOfSnoc(lines: seq<string>, home: string, line: string)
    ensures AssignmentsOf(lines + [line], home) == AssignmentsOf(lines, home) + [AssignmentOf(line, home)]
  {
    if lines == [] {
      assert lines + [line] == [line] && [line][1..] == [];
    } else {
      assert (lines + [line])[1..] == lines[1..] + [line];
      AssignmentsOfSnoc(lines[1..], home, line);
    }
  }

  lemma {:induction false} AssignFront(found: seq<Option<(string, string)>>, last: Option<(string, string)>, n: nat)
    requires n <= |found|
    ensures AssignUpTo(found + [last], n) == AssignUpTo(found, n)
  {
    if n != 0 {
      AssignFront(found, last, n - 1);
      assert (found + [last])[n - 1] == found[n - 1];
    }
  }

  /** The second reader's map is what the lines assign one after the other, the last one under a name standing. */
  lemma {:induction false} AssignmentsInOrder(lines: seq<string>, home: string, line: string)
    ensures Assignments([], home) == map[]
    ensures Assignments(lines + [line], home) ==
      match AssignmentOf(line, home)
      case None => Assignments(lines, home)
      case Some((name, value)) => Assignments(lines, home)[name := value]
  {
    AssignmentsOfSnoc(lines, home, line);
    AssignFront(AssignmentsOf(lines, home), AssignmentOf(line, home), |lines|);
    assert (AssignmentsOf(lines, home) + [AssignmentOf(line, home)])[|lines|] == AssignmentOf(line, home);
  }

  // ── references to HOME ───────────────────────────────────────────────────

  datatype Part = Plain(s: string) | Home(braced: bool)

  function PrintPart(x: Part): string {
    match x
    case Plain(s) => s
    case Home(braced) => if braced then "${HOME}" else "$HOME"
  }

  function PrintParts(xs: seq<Part>): string {
    if xs == [] then "" else PrintPart(xs[0]) + PrintParts(xs[1..])
  }

  function Filled(xs: seq<Part>, home: string): string {
    if xs == [] then "" else (if xs[0].Plain? then xs[0].s else home) + Filled(xs[1..], home)
  }

  predicate NoDollar(xs: seq<Part>) {
    forall i :: 0 <= i < |xs| && xs[i].Plain? ==> '$' !in xs[i].s
  }

  lemma {:induction false} PlainReplaced(s: string, rest: string, pat: string, home: string)
    requires pat != "" && pat[0] == '$' && '$' !in s
    ensures ReplaceStr(s + rest, pat, home) == s + ReplaceStr(rest, pat, home)
  {
    if s == "" {
      assert s + rest == rest;
    } else {
      assert s[0] in s && (s + rest)[0] == s[0] && (s + rest)[1..] == s[1..] + rest && s == [s[0]] + s[1..];
      PlainReplaced(s[1..], rest, pat, home);
      Assoc([s[0]], s[1..], ReplaceStr(rest, pat, home));
    }
  }

  lemma {:induction false} PatReplaced(rest: string, pat: string, home: string)
    requires pat != ""
    ensures ReplaceStr(pat + rest, pat, home) == home + ReplaceStr(rest, pat, home)
  {
    assert (pat + rest)[|pat|..] == rest;
  }

  // The bare reference is left alone by the first replacement.
  lemma {:induction false} BareStays(rest: string, home: string)
    ensures ReplaceStr("$HOME" + rest, "${HOME}", home) == "$HOME" + ReplaceStr(rest, "${HOME}", home)
  {
    var s := "$HOME" + rest;
    assert s[1] == 'H';
    assert s == "$" + ("HOME" + rest) && s[1..] == "HOME" + rest;
    PlainReplaced("HOME", rest, "${HOME}", home);
    Assoc("$", "HOME", ReplaceStr(rest, "${HOME}", home));
    assert "$" + "HOME" == "$HOME";
  }

  lemma {:induction false} FirstPass(xs: seq<Part>, home: string) returns (ys: seq<Part>)
    requires NoDollar(xs) && '$' !in home
    ensures NoDollar(ys) && (forall i :: 0 <= i < |ys| && ys[i].Home? ==> !ys[i].braced)
    ensures ReplaceStr(PrintParts(xs), "${HOME}", home) == PrintParts(ys) && Filled(ys, home) == Filled(xs, home)
  {
    ys := [];
    if xs != [] {
      var rest := PrintParts(xs[1..]);
      assert forall i :: 0 <= i < |xs| - 1 ==> xs[1..][i] == xs[i + 1];
      var zs := FirstPass(xs[1..], home);
      match xs[0] {
        case Plain(s) => PlainReplaced(s, rest, "${HOME}", home);
        case Home(braced) => if braced { PatReplaced(rest, "${HOME}", home); } else { BareStays(rest, home); }
      }
      var y := if xs[0] == Home(true) then Plain(home) else xs[0];
      ys := [y] + zs;
      assert ys[1..] == zs;
    }
  }

  lemma {:induction false} SecondPass(xs: seq<Part>, home: string)
    requires NoDollar(xs) && forall i :: 0 <= i < |xs| && xs[i].Home? ==> !xs[i].braced
    ensures ReplaceStr(PrintParts(xs), "$HOME", home) == Filled(xs, home)
  {
    if xs != [] {
      var rest := PrintParts(xs[1..]);
      assert forall i :: 0 <= i < |xs| - 1 ==> xs[1..][i] == xs[i + 1];
      SecondPass(xs[1..], home);
      match xs[0] {
        case Plain(s) => PlainReplaced(s, rest, "$HOME", home);
        case Home(_) => PatReplaced(rest, "$HOME", home);
      }
    }
  }

  /** Both forms of the reference are replaced by HOME, wherever they stand, and nothing else is. */
  lemma {:induction false} HomeIsFilledIn(xs: seq<Part>, home: string)
    requires NoDollar(xs) && '$' !in home
    ensures ExpandHome(PrintParts(xs), home) == Filled(xs, home)
  {
    var ys := FirstPass(xs, home);
    SecondPass(ys, home);
  }

  // ── the second reader ────────────────────────────────────────────────────

  ghost predicate AssignmentIs(a: Option<(string, string)>, name: string, value: string, home: string) {
    a.Some? && a.value.0 == Trim(name) && exists v :: Bare(Trim(value), v) && a.value.1 == ExpandHome(v, home)
  }

  /** The second reader passes over blank lines, comments and lines without an equals sign; any other line, with or without
      export in front, assigns its value, unquoted and with HOME filled in, to its name. */
  lemma {:induction false} AssignmentMeans(raw: string, home: string, body: string)
    requires Trim(raw) == "export " + body || (Trim(raw) == body && !("export " <= body))
    ensures AssignmentOf(raw, home).None? <==> Trim(raw) == "" || Trim(raw)[0] == '#' || '=' !in body
    ensures AssignmentOf(raw, home).Some? ==>
      forall name, value :: Splits(body, name, value) ==> AssignmentIs(AssignmentOf(raw, home), name, value, home)
  {
    var line := Trim(raw);
    assert EXPORT == "export ";
    if EXPORT <= line { assert line[7..] == body; }
    SplitIs(body);
    var pair := SplitOnce(body, '=');
    if pair.Some? { assert pair.value.0 + ['='] + pair.value.1 == body; }
    forall name, value | Splits(body, name, value) && AssignmentOf(raw, home).Some?
      ensures AssignmentIs(AssignmentOf(raw, home), name, value, home)
    {
      UnquoteIsBare(Trim(value));
    }
  }
}
