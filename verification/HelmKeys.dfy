/** src/install_helm_charts.rs, quote_key: what becomes of the generated file when a set key does not survive
    printing. However such a line is read, the keys it assigns are together shorter than the one printed, and the
    tables of the parsed file weigh as much as its lines, so a file that comes back as it was holds no such key. */
module HelmKeys {
  import opened Prelude
  import opened Text
  import opened Template
  import opened Toml
  import opened Helm

  // ── how much of a line can become a key ──────────────────────────────────

  lemma {:induction false} BlanksShorten(s: string)
    ensures |SkipBlanks(s)| <= |s|
  {
    if s != "" && (s[0] == ' ' || s[0] == '\t') {
      BlanksShorten(s[1..]);
    }
  }

  lemma {:induction false} ValueIsLong(s: string)
    requires ValueOf(s).Some?
    ensures 3 <= |s|
  {
    BlanksShorten(s);
    var a := SkipBlanks(s);
    BlanksShorten(a[1..]);
    assert |BasicString(SkipBlanks(a[1..])).value.rest| + 2 <= |SkipBlanks(a[1..])|;
  }

  lemma {:induction false} KeyAndRest(s: string)
    requires Key(s).Some?
    ensures |Key(s).value.value| + |Key(s).value.rest| <= |s|
  {
  }

  // The length of the key a line assigns in the set table.
  function LineLoad(line: string): nat {
    match LineOf(line)
    case Some(SetEntry(key, _)) => |key|
    case _ => 0
  }

  function Load(lines: seq<string>): nat {
    if lines == [] then 0 else LineLoad(lines[0]) + Load(lines[1..])
  }

  function TextLoad(text: string): nat {
    Load(Terminated(text))
  }

  lemma {:induction false} LineBound(line: string)
    ensures LineLoad(line) == 0 || LineLoad(line) + 7 <= |line|
  {
    var l := LineOf(line);
    if l.Some? && l.value.SetEntry? {
      var k := Key(line[4..]).value;
      KeyAndRest(line[4..]);
      ValueIsLong(k.rest);
    }
  }

  lemma {:induction false} LoadAppend(a: seq<string>, b: seq<string>)
    ensures Load(a + b) == Load(a) + Load(b)
  {
    if a == [] {
      assert a + b == b;
    } else {
      assert (a + b)[1..] == a[1..] + b;
      LoadAppend(a[1..], b);
    }
  }

  lemma {:induction false} EndsLine(x: string)
    ensures Unterminated(x + "\n") == ""
  {
    TerminatedAppend(x, "\n");
    TerminatedCons(Unterminated(x), "");
    assert Unterminated(x) + "\n" + "" == Unterminated(x) + "\n";
  }

  lemma {:induction false} TextLoadAppend(x: string, rest: string)
    ensures TextLoad(x + "\n" + rest) == TextLoad(x + "\n") + TextLoad(rest)
    ensures Unterminated(x + "\n" + rest) == Unterminated(rest)
  {
    EndsLine(x);
    TerminatedAppend(x + "\n", rest);
    assert "" + rest == rest;
    LoadAppend(Terminated(x + "\n"), Terminated(rest));
  }

  lemma {:induction false} OneLineLoad(x: string)
    requires '\n' !in x
    ensures TextLoad(x + "\n") == LineLoad(x)
  {
    TerminatedCons(x, "");
    assert x + "\n" + "" == x + "\n";
    assert Terminated("") == [] && Terminated(x + "\n") == [x] + [] == [x];
    assert [x][1..] == [] && Load([x]) == LineLoad(x) + Load([]);
  }

  // ── a key never reaches into its value ───────────────────────────────────

  lemma {:induction false} HexPrefix(s: string, n: nat, i: nat)
    requires n <= |s| && HexValue(s[..n]).Some? && i < n
    ensures HexDigit(s[i]).Some?
    decreases n
  {
    assert s[..n][..n - 1] == s[..n - 1] && s[..n][n - 1] == s[n - 1];
    if i < n - 1 {
      HexPrefix(s, n - 1, i);
    }
  }

  lemma {:induction false} ScalarFits(x: string, tail: string, n: nat)
    requires tail != "" && HexDigit(tail[0]).None? && Scalar(x + tail, n).Some?
    ensures n <= |x|
  {
    if |x| < n {
      HexPrefix(x + tail, n, |x|);
    }
  }

  // A character of x followed by text that cannot continue an escape lies within x.
  lemma {:induction false} CharStays(x: string, tail: string) returns (n: nat)
    requires x != "" && tail != "" && tail[0] == ' ' && Char(x + tail).Some?
    ensures 0 < n <= |x| && Char(x + tail).value.rest == x[n..] + tail
  {
    var s := x + tail;
    n := 1;
    assert s[1..] == x[1..] + tail;
    if s[0] == '\\' {
      n := EscapeStays(x[1..], tail);
      n := n + 1;
      assert x[1..][n - 1..] == x[n..];
    }
  }

  lemma {:induction false} EscapeStays(y: string, tail: string) returns (n: nat)
    requires tail != "" && tail[0] == ' ' && Escape(y + tail).Some?
    ensures 0 < n <= |y| && Escape(y + tail).value.rest == y[n..] + tail
  {
    var s := y + tail;
    assert s[0] == if y == "" then ' ' else y[0];
    n := 1;
    assert s[1..] == y[1..] + tail;
    if y[0] == 'u' {
      ScalarFits(y[1..], tail, 4);
      n := 5;
      assert s[5..] == y[5..] + tail;
    } else if y[0] == 'U' {
      ScalarFits(y[1..], tail, 8);
      n := 9;
      assert s[9..] == y[9..] + tail;
    }
  }

  // The text behind a key, and where a quoted key may end in it.
  function Behind3(y: string): string {
    " = \"" + y
  }

  lemma {:induction false} TailSkips(c: char, s: string)
    requires c != '"' && c != '\\' && !Control(c) && StringTail([c] + s).Some?
    ensures StringTail(s).Some? && StringTail([c] + s).value.rest == StringTail(s).value.rest
  {
    assert ([c] + s)[1..] == s && Char([c] + s) == Some(Read(c, s));
  }

  lemma {:induction false} Behind3Chars(y: string)
    ensures Behind3(y) == [' '] + (['='] + ([' '] + ("\"" + y)))
  {
  }

  lemma {:induction false} TailOfRest(y: string)
    requires StringTail(Behind3(y)).Some?
    ensures StringTail(Behind3(y)).value.rest == y
  {
    var quoted := "\"" + y;
    Behind3Chars(y);
    TailSkips(' ', ['='] + ([' '] + quoted));
    TailSkips('=', [' '] + quoted);
    TailSkips(' ', quoted);
    assert quoted[1..] == y;
  }

  lemma {:induction false} TailStays(x: string, y: string)
    requires StringTail(x + Behind3(y)).Some?
    ensures var r := StringTail(x + Behind3(y)).value;
      r.rest == y || (|Behind3(y)| <= |r.rest| && |r.value| + 1 + |r.rest| <= |x| + |Behind3(y)|)
    decreases |x|
  {
    var s := x + Behind3(y);
    if x == "" {
      assert s == Behind3(y);
      TailOfRest(y);
    } else if s[0] == '"' {
      assert s[1..] == x[1..] + Behind3(y);
    } else {
      var n := CharStays(x, Behind3(y));
      TailStays(x[n..], y);
    }
  }

  // ── nor does a value contain the rest of an assignment ───────────────────

  lemma {:induction false} EscapedHead(st: Style, v: string)
    requires Plain(st) && v != ""
    ensures EscapedAll(st, v) == Escaped(st, v[0]) + EscapedAll(st, v[1..])
    ensures Escaped(st, v[0]) != "" && Escaped(st, v[0])[0] != '"'
    ensures Escaped(st, v[0])[0] == ' ' || Escaped(st, v[0])[0] == '=' || Escaped(st, v[0])[0] == '\'' ==> |Escaped(st, v[0])| == 1
    ensures Escaped(st, v[0])[0] != '\t'
  {
  }

  // Blanks in front of a printed value are blanks of the value.
  lemma {:induction false} SkipValue(st: Style, v: string) returns (w: string)
    requires Plain(st)
    ensures SkipBlanks(EscapedAll(st, v) + "\"") == EscapedAll(st, w) + "\"" && |w| <= |v|
  {
    w := v;
    if v != "" {
      EscapedHead(st, v);
      var s := EscapedAll(st, v) + "\"";
      if s[0] == ' ' {
        assert s[1..] == EscapedAll(st, v[1..]) + "\"";
        w := SkipValue(st, v[1..]);
      }
    }
  }

  lemma {:induction false} ValueIsNoString(st: Style, v: string)
    requires Plain(st)
    ensures BasicString(EscapedAll(st, v) + "\"").None?
  {
    if v == "" {
      assert (EscapedAll(st, v) + "\"")[1..] == "";
      assert StringTail("").None?;
    } else {
      EscapedHead(st, v);
      assert (EscapedAll(st, v) + "\"")[0] == Escaped(st, v[0])[0];
    }
  }

  // What stands behind an equals sign that opens a printed value.
  lemma {:induction false} EqualsOf(st: Style, w: string)
    requires Plain(st) && "=" <= EscapedAll(st, w) + "\""
    ensures w != "" && (EscapedAll(st, w) + "\"")[1..] == EscapedAll(st, w[1..]) + "\""
  {
    var s := EscapedAll(st, w) + "\"";
    assert s[0] == "="[0];
    assert w == "" ==> s == "\"";
    EscapedHead(st, w);
    assert s == Escaped(st, w[0]) + (EscapedAll(st, w[1..]) + "\"");
  }

  // No printed value up to its closing quote reads as an equals sign and a string.
  lemma {:induction false} ValueIsNoAssignment(st: Style, v: string)
    requires Plain(st)
    ensures ValueOf(EscapedAll(st, v) + "\"").None?
  {
    var w := SkipValue(st, v);
    if "=" <= EscapedAll(st, w) + "\"" {
      EqualsOf(st, w);
      var u := SkipValue(st, w[1..]);
      ValueIsNoString(st, u);
    }
  }

  // A printed value cut behind a single quote is again a printed value.
  lemma {:induction false} CutAtQuote(st: Style, v: string, i: nat) returns (w: string)
    requires Plain(st) && i <= |EscapedAll(st, v)| && (EscapedAll(st, v) + "\"")[i] == '\''
    ensures (EscapedAll(st, v) + "\"")[i + 1..] == EscapedAll(st, w) + "\""
  {
    EscapedHead(st, v);
    var head := Escaped(st, v[0]);
    var tail := EscapedAll(st, v[1..]) + "\"";
    var s := EscapedAll(st, v) + "\"";
    assert s == head + tail;
    if i < |head| {
      NoQuoteInside(st, v[0]);
      w := v[1..];
      assert s[1..] == tail;
    } else {
      w := CutAtQuote(st, v[1..], i - |head|);
      assert s[i + 1..] == tail[i - |head| + 1..];
    }
  }

  lemma {:induction false} NoQuoteInside(st: Style, c: char)
    requires Plain(st)
    ensures forall i :: 0 <= i < |Escaped(st, c)| && Escaped(st, c)[i] == '\'' ==> i == 0 && |Escaped(st, c)| == 1
  {
    HexIsOneLine(st, c);
    var long := "\\u{" + st.hex(c) + "}";
    assert forall i :: 3 <= i < |long| - 1 ==> long[i] == st.hex(c)[i - 3];
  }

  // ── one printed assignment ───────────────────────────────────────────────

  function ValueText(st: Style, v: string): string {
    EscapedAll(st, v) + "\""
  }

  lemma {:induction false} PrintedValue(st: Style, v: string)
    ensures " = " + DebugStr(st, v) == Behind3(ValueText(st, v))
  {
  }

  // The key a line assigns when p stands where the key does: no longer than p, and shorter still if quoted.
  predicate Inside(p: string, tail: string, k: Read<string>) {
    && |k.value| <= |p| && |tail| <= |k.rest|
    && (if p != "" && (p[0] == '"' || p[0] == '\'') then |k.value| + 2 + |k.rest| <= |p| + |tail|
        else k.value == p[..BareLen(p)] && k.value != "")
  }

  lemma {:induction false} QuotedKey(p: string, tail: string)
    requires p != "" && p[0] == '"'
    ensures Key(p + tail) == StringTail(p[1..] + tail)
  {
    assert (p + tail)[0] == '"' && (p + tail)[1..] == p[1..] + tail;
  }

  lemma {:induction false} QuotedInside(st: Style, p: string, v: string)
    requires Plain(st) && p != "" && p[0] == '"'
    requires Key(p + Behind3(ValueText(st, v))).Some? && ValueOf(Key(p + Behind3(ValueText(st, v))).value.rest).Some?
    ensures Inside(p, Behind3(ValueText(st, v)), Key(p + Behind3(ValueText(st, v))).value)
  {
    QuotedKey(p, Behind3(ValueText(st, v)));
    TailStays(p[1..], ValueText(st, v));
    ValueIsNoAssignment(st, v);
  }

  // A single quote found in the value leaves nothing behind that reads as an assignment.
  lemma {:induction false} LiteralBeyond(st: Style, x: string, v: string, q: nat)
    requires Plain(st) && |x| <= q < |x + Behind3(ValueText(st, v))| && (x + Behind3(ValueText(st, v)))[q] == '\''
    ensures ValueOf((x + Behind3(ValueText(st, v)))[q + 1..]).None?
  {
    var y := ValueText(st, v);
    var i := q - |x|;
    assert Behind3(y)[i] == '\'' && Behind3(y)[0] == ' ' && Behind3(y)[1] == '=' && Behind3(y)[2] == ' ' && Behind3(y)[3] == '"';
    assert Behind3(y)[i] == y[i - 4];
    var w := CutAtQuote(st, v, i - 4);
    assert (x + Behind3(y))[q + 1..] == y[i - 4 + 1..];
    ValueIsNoAssignment(st, w);
  }

  lemma {:induction false} LiteralKey(p: string, tail: string)
    requires p != "" && p[0] == '\'' && Key(p + tail).Some?
    ensures var q := Find(p[1..] + tail, '\'');
      && q.Some? && Key(p + tail).value.rest == (p[1..] + tail)[q.value + 1..]
      && (q.value < |p| - 1 ==> Inside(p, tail, Key(p + tail).value))
  {
    assert (p + tail)[0] == '\'' && (p + tail)[1..] == p[1..] + tail;
    assert Key(p + tail) == LiteralTail(p[1..] + tail);
  }

  lemma {:induction false} LiteralInside(st: Style, p: string, v: string)
    requires Plain(st) && p != "" && p[0] == '\''
    requires Key(p + Behind3(ValueText(st, v))).Some? && ValueOf(Key(p + Behind3(ValueText(st, v))).value.rest).Some?
    ensures Inside(p, Behind3(ValueText(st, v)), Key(p + Behind3(ValueText(st, v))).value)
  {
    LiteralKey(p, Behind3(ValueText(st, v)));
    var q := Find(p[1..] + Behind3(ValueText(st, v)), '\'').value;
    if |p| - 1 <= q {
      LiteralBeyond(st, p[1..], v, q);
    }
  }

  lemma {:induction false} BareInside(p: string, tail: string)
    requires tail != "" && tail[0] == ' ' && !(p != "" && (p[0] == '"' || p[0] == '\'')) && Key(p + tail).Some?
    ensures Inside(p, tail, Key(p + tail).value)
  {
    BareStops(p, tail);
    var n := BareLen(p);
    assert (p + tail)[0] == if p == "" then ' ' else p[0];
    assert (p + tail)[..n] == p[..n] && |(p + tail)[n..]| == |p| - n + |tail|;
  }

  lemma {:induction false} KeyInside(st: Style, p: string, v: string)
    requires Plain(st)
    requires Key(p + Behind3(ValueText(st, v))).Some? && ValueOf(Key(p + Behind3(ValueText(st, v))).value.rest).Some?
    ensures Inside(p, Behind3(ValueText(st, v)), Key(p + Behind3(ValueText(st, v))).value)
  {
    if p != "" && p[0] == '"' {
      QuotedInside(st, p, v);
    } else if p != "" && p[0] == '\'' {
      LiteralInside(st, p, v);
    } else {
      BareInside(p, Behind3(ValueText(st, v)));
    }
  }

  // A key on one line comes back no longer, and as long only as itself.
  lemma {:induction false} OneLineKey(st: Style, k: string, v: string)
    requires Plain(st)
    ensures var line := SetLine(st, k, v);
      && LineLoad(line) <= |k|
      && (LineOf(line).Some? && LineLoad(line) == |k| ==> KeyOk(k))
  {
    var line := SetLine(st, k, v);
    var p, tail := QuoteKey(k), Behind3(ValueText(st, v));
    PrintedValue(st, v);
    assert line[..4] == "set." && line[4..] == p + tail && line[0] == 's';
    if LineOf(line).Some? {
      KeyInside(st, p, v);
      var r := Key(p + tail).value;
      if '.' in k || '-' in k {
        QuotedExact(k, tail, r);
      } else if |r.value| == |k| {
        assert k != "" && (k[0] == '"' || k[0] == '\'') ==> |r.value| + 2 <= |k|;
      }
    }
  }

  lemma {:induction false} QuotedExact(k: string, tail: string, r: Read<string>)
    requires Key("\"" + k + "\"" + tail) == Some(r) && Inside("\"" + k + "\"", tail, r)
    ensures |r.value| <= |k| && (|r.value| == |k| ==> Verbatim(k))
  {
    var s := "\"" + k + "\"" + tail;
    assert s[1..] == k + "\"" + tail;
    if |r.value| == |k| {
      TailVerbatim(s[1..], r.value, r.rest);
      assert s[1..][..|k|] == k && (r.value + "\"" + r.rest)[..|k|] == r.value;
    }
  }

  // ── keys that hold line breaks ───────────────────────────────────────────

  lemma {:induction false} CutLine(head: string, p: string, i: nat, tail: string)
    requires i < |p| && p[i] == '\n'
    ensures head + (p + tail) + "\n" == head + p[..i] + "\n" + (p[i + 1..] + tail + "\n")
  {
    assert p == p[..i] + "\n" + p[i + 1..];
  }

  // The lines of a key's remainder with its value.
  lemma {:induction false} RestLoad(st: Style, p: string, v: string)
    requires Plain(st)
    ensures var load := TextLoad(p + Behind3(ValueText(st, v)) + "\n"); load == 0 || load + 4 <= |p|
    decreases |p|
  {
    var tail := Behind3(ValueText(st, v));
    TailIsLine(st, v);
    var i := Find(p, '\n');
    if i.None? {
      OneLineLoad(p + tail);
      LastLine(st, p, v);
    } else {
      var l, rest := p[..i.value], p[i.value + 1..];
      CutLine("", p, i.value, tail);
      assert "" + (p + tail) + "\n" == p + tail + "\n" && "" + l == l;
      FirstLine(l, rest + tail + "\n");
      RestLoad(st, rest, v);
    }
  }

  lemma {:induction false} FirstLine(l: string, rest: string)
    requires '\n' !in l
    ensures TextLoad(l + "\n" + rest) == LineLoad(l) + TextLoad(rest) && (LineLoad(l) == 0 || LineLoad(l) + 7 <= |l|)
  {
    TextLoadAppend(l, rest);
    OneLineLoad(l);
    LineBound(l);
  }

  lemma {:induction false} TailIsLine(st: Style, v: string)
    requires Plain(st)
    ensures '\n' !in Behind3(ValueText(st, v))
  {
    PlainIsOneLine(st);
    OneLine(st, v);
  }

  lemma {:induction false} LastLine(st: Style, p: string, v: string)
    requires Plain(st)
    ensures var load := LineLoad(p + Behind3(ValueText(st, v))); load == 0 || load + 4 <= |p|
  {
    var tail := Behind3(ValueText(st, v));
    var line := p + tail;
    var l := LineOf(line);
    if l.Some? && l.value.SetEntry? {
      SetNeedsRoom(p, tail);
      assert line[4..] == p[4..] + tail;
      KeyInside(st, p[4..], v);
    }
  }

  lemma {:induction false} SetNeedsRoom(p: string, tail: string)
    requires 4 <= |tail| && tail[0] == ' ' && tail[1] == '=' && tail[2] == ' ' && tail[3] == '"' && "set." <= p + tail
    ensures 4 <= |p|
  {
    var line := p + tail;
    assert line[0] == 's' && line[1] == 'e' && line[2] == 't' && line[3] == '.';
  }

  lemma {:induction false} BreakInQuoted(k: string)
    requires '\n' in k
    ensures '\n' in QuoteKey(k) && |QuoteKey(k)| <= |k| + 2
  {
    var i :| 0 <= i < |k| && k[i] == '\n';
    assert ("\"" + k + "\"")[i + 1] == '\n';
  }

  lemma {:induction false} SetLineText(st: Style, k: string, v: string)
    ensures SetLine(st, k, v) == "set." + (QuoteKey(k) + Behind3(ValueText(st, v)))
  {
    PrintedValue(st, v);
  }

  lemma {:induction false} BrokenKey(st: Style, k: string, v: string)
    requires Plain(st) && '\n' in k
    ensures TextLoad(SetLine(st, k, v) + "\n") < |k|
  {
    var p, tail := QuoteKey(k), Behind3(ValueText(st, v));
    SetLineText(st, k, v);
    BreakInQuoted(k);
    var i := Find(p, '\n').value;
    CutLine("set.", p, i, tail);
    FirstLine("set." + p[..i], p[i + 1..] + tail + "\n");
    RestLoad(st, p[i + 1..], v);
  }

  /** However a set line is read, the keys it assigns are together no longer than its key, and only a key that survives
      printing comes back in full. */
  lemma {:induction false} SetLineLoad(st: Style, k: string, v: string)
    requires Plain(st)
    ensures var text := SetLine(st, k, v) + "\n";
      && TextLoad(text) <= |k|
      && (AllParse(Terminated(text)) && TextLoad(text) == |k| ==> KeyOk(k))
  {
    if '\n' in k {
      BrokenKey(st, k, v);
    } else {
      var line := SetLine(st, k, v);
      PrintedValue(st, v);
      TailIsLine(st, v);
      assert '\n' !in line;
      OneLineLoad(line);
      OneLineKey(st, k, v);
      TerminatedCons(line, "");
      assert line + "\n" + "" == line + "\n" && ([line] + Terminated(""))[0] == line;
    }
  }

  predicate AllParse(lines: seq<string>) {
    forall i :: 0 <= i < |lines| ==> LineOf(lines[i]).Some?
  }

  // ── the whole file ───────────────────────────────────────────────────────

  lemma {:induction false} JoinLoad(a: seq<string>, b: seq<string>)
    ensures TextLoad(Join(a + b)) == TextLoad(Join(a)) + TextLoad(Join(b))
    ensures Unterminated(Join(a)) == ""
    ensures Terminated(Join(a + b)) == Terminated(Join(a)) + Terminated(Join(b))
  {
    JoinAppend(a, b);
    JoinEnds(a);
    TerminatedAppend(Join(a), Join(b));
    assert "" + Join(b) == Join(b);
    LoadAppend(Terminated(Join(a)), Terminated(Join(b)));
  }

  lemma {:induction false} JoinEnds(a: seq<string>)
    ensures Unterminated(Join(a)) == ""
  {
    if a != [] {
      JoinEnds(a[1..]);
      TextLoadAppend(a[0], Join(a[1..]));
    }
  }

  lemma {:induction false} NoSetNoLoad(lines: seq<string>)
    requires OneLiners(lines) && forall i :: 0 <= i < |lines| ==> LineLoad(lines[i]) == 0
    ensures TextLoad(Join(lines)) == 0
  {
    JoinSplits(lines);
    AllZero(lines);
  }

  lemma {:induction false} AllZero(lines: seq<string>)
    requires forall i :: 0 <= i < |lines| ==> LineLoad(lines[i]) == 0
    ensures Load(lines) == 0
  {
    if lines != [] {
      AllZero(lines[1..]);
    }
  }

  function KeyLength(pairs: Pairs): nat {
    if pairs == [] then 0 else |pairs[0].0| + KeyLength(pairs[1..])
  }

  lemma {:induction false} ParseParts(a: seq<string>, b: seq<string>)
    ensures AllParse(a + b) <==> AllParse(a) && AllParse(b)
  {
    assert forall i :: 0 <= i < |a| ==> (a + b)[i] == a[i];
    assert forall i :: 0 <= i < |b| ==> (a + b)[|a| + i] == b[i];
  }

  lemma {:induction false} SetsLoad(st: Style, pairs: Pairs)
    requires Plain(st)
    ensures var text := Join(SetLines(st, pairs));
      && TextLoad(text) <= KeyLength(pairs)
      && (AllParse(Terminated(text)) && TextLoad(text) == KeyLength(pairs) ==> KeysOk(pairs))
  {
    if pairs != [] {
      var line := SetLine(st, pairs[0].0, pairs[0].1);
      var rest := SetLines(st, pairs[1..]);
      SetLineLoad(st, pairs[0].0, pairs[0].1);
      SetsLoad(st, pairs[1..]);
      JoinOne(line);
      JoinLoad([line], rest);
      ParseParts(Terminated(Join([line])), Terminated(Join(rest)));
      assert SetLines(st, pairs) == [line] + rest;
      assert forall i :: 0 < i < |pairs| ==> pairs[i] == pairs[1..][i - 1];
    }
  }

  lemma {:induction false} FieldsLoadNothing(st: Style, fields: Pairs)
    requires Plain(st) && forall i :: 0 <= i < |fields| ==> FieldName(fields[i].0)
    ensures forall i :: 0 <= i < |FieldLines(st, fields)| ==> LineLoad(FieldLines(st, fields)[i]) == 0
  {
    if fields != [] {
      FieldReads(st, fields[0].0, fields[0].1);
      FieldsLoadNothing(st, fields[1..]);
    }
  }

  lemma {:induction false} BlockHead(st: Style, r: Resource<Pairs>)
    requires Plain(st)
    ensures TextLoad(Join([HEADER] + FieldLines(st, Fields(r)))) == 0
  {
    FieldNames(r);
    FieldsLoadNothing(st, Fields(r));
    FieldsAreLines(st, Fields(r));
    OneLinersAppend([HEADER], FieldLines(st, Fields(r)));
    NoSetNoLoad([HEADER] + FieldLines(st, Fields(r)));
  }

  // Lines without load around others.
  lemma {:induction false} Framed(head: seq<string>, lines: seq<string>)
    requires TextLoad(Join(head)) == 0
    ensures var text := Join(head + (lines + [""]));
      && TextLoad(text) == TextLoad(Join(lines))
      && (AllParse(Terminated(text)) ==> AllParse(Terminated(Join(lines))))
  {
    JoinLoad(head, lines + [""]);
    JoinLoad(lines, [""]);
    NoSetNoLoad([""]);
    ParseParts(Terminated(Join(head)), Terminated(Join(lines + [""])));
    ParseParts(Terminated(Join(lines)), Terminated(Join([""])));
  }

  lemma {:induction false} BlockFrame(st: Style, r: Resource<Pairs>)
    ensures Block(st, r) == [HEADER] + FieldLines(st, Fields(r)) + (SetLines(st, r.set_) + [""])
  {
  }

  lemma {:induction false} BlockLoad(st: Style, r: Resource<Pairs>)
    requires Plain(st)
    ensures var text := Join(Block(st, r));
      && TextLoad(text) <= KeyLength(r.set_)
      && (AllParse(Terminated(text)) && TextLoad(text) == KeyLength(r.set_) ==> KeysOk(r.set_))
  {
    BlockFrame(st, r);
    BlockHead(st, r);
    Framed([HEADER] + FieldLines(st, Fields(r)), SetLines(st, r.set_));
    SetsLoad(st, r.set_);
  }

  function FileLength(rs: seq<Resource<Pairs>>): nat {
    if rs == [] then 0 else KeyLength(rs[0].set_) + FileLength(rs[1..])
  }

  predicate AllKeysOk(rs: seq<Resource<Pairs>>) {
    forall i :: 0 <= i < |rs| ==> KeysOk(rs[i].set_)
  }

  lemma {:induction false} BlocksLoad(st: Style, rs: seq<Resource<Pairs>>)
    requires Plain(st)
    ensures var text := Join(Blocks(st, rs));
      && TextLoad(text) <= FileLength(rs)
      && (AllParse(Terminated(text)) && TextLoad(text) == FileLength(rs) ==> AllKeysOk(rs))
  {
    if rs != [] {
      BlockLoad(st, rs[0]);
      BlocksLoad(st, rs[1..]);
      JoinLoad(Block(st, rs[0]), Blocks(st, rs[1..]));
      ParseParts(Terminated(Join(Block(st, rs[0]))), Terminated(Join(Blocks(st, rs[1..]))));
      assert forall i :: 0 < i < |rs| ==> rs[i] == rs[1..][i - 1];
    }
  }

  // ── the tables ───────────────────────────────────────────────────────────

  ghost function SetWeight(keys: set<string>): nat {
    if keys == {} then 0 else var k :| k in keys; |k| + SetWeight(keys - {k})
  }

  lemma {:induction false} WeightOf(keys: set<string>, k: string)
    requires k in keys
    ensures SetWeight(keys) == |k| + SetWeight(keys - {k})
    decreases keys
  {
    var c :| c in keys && SetWeight(keys) == |c| + SetWeight(keys - {c});
    if c != k {
      WeightOf(keys - {c}, k);
      WeightOf(keys - {k}, c);
      assert keys - {c} - {k} == keys - {k} - {c};
    }
  }

  ghost function Weight(ts: seq<Table>): nat {
    if ts == [] then 0 else SetWeight(ts[0].set_.Keys) + Weight(ts[1..])
  }

  lemma {:induction false} WeightSnoc(ts: seq<Table>, t: Table)
    ensures Weight(ts + [t]) == Weight(ts) + SetWeight(t.set_.Keys)
  {
    if ts == [] {
      assert ts + [t] == [t] && [t][1..] == [];
    } else {
      assert (ts + [t])[1..] == ts[1..] + [t];
      WeightSnoc(ts[1..], t);
    }
  }

  lemma {:induction false} NewKeyWeighs(m: map<string, string>, k: string, v: string)
    requires k !in m
    ensures SetWeight(m[k := v].Keys) == SetWeight(m.Keys) + |k|
  {
    WeightOf(m[k := v].Keys, k);
    assert m[k := v].Keys - {k} == m.Keys;
  }

  lemma {:induction false} OptWeight(done: seq<Table>, cur: Option<Table>)
    ensures Weight(done + Opt(cur)) == Weight(done) + if cur.Some? then SetWeight(cur.value.set_.Keys) else 0
  {
    if cur.Some? {
      WeightSnoc(done, cur.value);
    } else {
      assert done + [] == done;
    }
  }

  // Every key that a line assigns ends up in a table, and nothing else does.
  lemma {:induction false} TablesWeigh(lines: seq<string>, done: seq<Table>, cur: Option<Table>)
    requires Tables(lines, done, cur).Some?
    ensures AllParse(lines) && Weight(Tables(lines, done, cur).value) == Weight(done + Opt(cur)) + Load(lines)
  {
    if lines != [] {
      assert forall i :: 0 < i < |lines| ==> lines[i] == lines[1..][i - 1];
      OptWeight(done, cur);
      match LineOf(lines[0]).value {
        case Nothing => TablesWeigh(lines[1..], done, cur);
        case Header =>
          TablesWeigh(lines[1..], done + Opt(cur), Some(Table(map[], map[])));
          OptWeight(done + Opt(cur), Some(Table(map[], map[])));
        case Assign(name, value) =>
          var next := cur.value.(fields := cur.value.fields[name := value]);
          TablesWeigh(lines[1..], done, Some(next));
          OptWeight(done, Some(next));
        case SetEntry(key, value) =>
          var next := cur.value.(set_ := cur.value.set_[key := value]);
          TablesWeigh(lines[1..], done, Some(next));
          OptWeight(done, Some(next));
          NewKeyWeighs(cur.value.set_, key, value);
      }
    }
  }

  lemma {:induction false} AsMapWeighs(pairs: Pairs)
    requires Distinct(pairs)
    ensures SetWeight(AsMap(pairs).Keys) == KeyLength(pairs)
  {
    if pairs != [] {
      var rest := pairs[1..];
      assert forall i :: 0 < i < |pairs| ==> pairs[i] == rest[i - 1];
      AsMapWeighs(rest);
      AsMapKeys(rest, pairs[0].0);
      NewKeyWeighs(AsMap(rest), pairs[0].0, pairs[0].1);
      assert AsMap(pairs).Keys == AsMap(rest)[pairs[0].0 := pairs[0].1].Keys;
    }
  }

  predicate AllDistinct(rs: seq<Resource<Pairs>>) {
    forall i :: 0 <= i < |rs| ==> Distinct(rs[i].set_)
  }

  lemma {:induction false} ExpectedWeighs(ts: seq<Table>, rs: seq<Resource<Pairs>>)
    requires AllDistinct(rs) && ResourcesOf(ts) == Some(ExpectedAll(rs))
    ensures Weight(ts) == FileLength(rs)
  {
    if ts != [] && rs != [] {
      assert ResourcesOf(ts).value[1..] == ResourcesOf(ts[1..]).value;
      assert ExpectedAll(rs)[0] == Expected(rs[0]) && ExpectedAll(rs)[1..] == ExpectedAll(rs[1..]);
      assert ts[0].set_ == AsMap(rs[0].set_);
      AsMapWeighs(rs[0].set_);
      ExpectedWeighs(ts[1..], rs[1..]);
    }
  }

  /** A file that comes back as it was had only keys that survive printing. */
  lemma {:induction false} KeysSurvive(st: Style, rs: seq<Resource<Pairs>>)
    requires Plain(st) && AllDistinct(rs) && ReadBack(Join(Blocks(st, rs))) == Some(ExpectedAll(rs))
    ensures AllKeysOk(rs)
  {
    var text := Join(Blocks(st, rs));
    JoinEnds(Blocks(st, rs));
    var lines := Terminated(text) + [""];
    var ts := Tables(lines, [], None).value;
    TablesWeigh(lines, [], None);
    ExpectedWeighs(ts, rs);
    assert [] + Opt(None) == [];
    LoadAppend(Terminated(text), [""]);
    assert [""][1..] == [] && Load([""]) == 0;
    ParseParts(Terminated(text), [""]);
    BlocksLoad(st, rs);
  }

  /** The printed file comes back as the same resources, the values file reduced to its name, if and only if it has a
      resource, every text consists of printable characters, tabs and line breaks, and every set key is bare or, having
      a dot or a dash, free of quotes, backslashes and control characters. */
  lemma {:induction false} FileSurvivesIff(st: Style, rs: seq<Resource<Pairs>>)
    requires Plain(st) && AllDistinct(rs)
    ensures ReadBack(Join(Blocks(st, rs))) == Some(ExpectedAll(rs)) <==> rs != [] && AllTameResources(st, rs) && AllKeysOk(rs)
  {
    if ReadBack(Join(Blocks(st, rs))) == Some(ExpectedAll(rs)) {
      KeysSurvive(st, rs);
    }
    if AllKeysOk(rs) {
      assert AllKeyed(rs);
      FileReadsBack(st, rs);
    }
  }

  /** From plan to install, for every file whose set tables have no key twice: when rendering succeeds, the installer reads
      every resource with its set values substituted, its values file reduced to a name and nothing else changed, exactly
      under those conditions on the texts and keys. */
  lemma {:induction false} InstallReadsIff(st: Style, values: map<string, ResolvedValue>, rs: seq<Resource<Pairs>>)
    requires Plain(st) && AllDistinct(rs) && FileText(st, values, rs).Ok?
    ensures var sub := Substituted(values, rs);
      && sub.Ok? && |sub.value| == |rs| && (forall i :: 0 <= i < |rs| ==> OnlySetsDiffer(values, rs[i], sub.value[i]))
      && (ReadBack(FileText(st, values, rs).value) == Some(ExpectedAll(sub.value)) <==>
            rs != [] && AllTameResources(st, sub.value) && AllKeysOk(rs))
  {
    FileTextIs(st, values, rs);
    SubstitutedKeeps(values, rs);
    var sub := Substituted(values, rs).value;
    forall i | 0 <= i < |rs|
      ensures Distinct(sub[i].set_) && (KeysOk(sub[i].set_) <==> KeysOk(rs[i].set_))
    {
      assert Distinct(rs[i].set_);
      assert forall j :: 0 <= j < |rs[i].set_| ==> sub[i].set_[j].0 == rs[i].set_[j].0;
    }
    FileSurvivesIff(st, sub);
  }
}
