/** The strings and keys of TOML v1.0.0 that the generated resources.toml uses, against the Debug
    format of Rust that prints them. */
module Toml {
  import opened Prelude
  import opened Text

  // ── printing: {:?} of a str ──────────────────────────────────────────────

  // Which characters Rust prints as they are, and the hexadecimal form of the others.
  datatype Style = Style(printable: char -> bool, hex: char -> string)

  // Control characters are never printed as they are.
  ghost predicate Sensible(st: Style) {
    forall c :: st.printable(c) ==> ' ' <= c && c != '\U{007F}'
  }

  function Escaped(st: Style, c: char): string {
    if c == '"' then "\\\""
    else if c == '\\' then "\\\\"
    else if c == '\t' then "\\t"
    else if c == '\n' then "\\n"
    else if c == '\r' then "\\r"
    else if c == '\0' then "\\0"
    else if st.printable(c) then [c]
    else "\\u{" + st.hex(c) + "}"
  }

  // A character that is neither printable nor has a letter of its own is given by its number.
  lemma {:induction false} OddCharacters(st: Style, c: char)
    requires !st.printable(c) && c !in "\"\\\t\n\r" && c != '\0'
    ensures Escaped(st, c) == "\\u{" + st.hex(c) + "}"
  {
    var special := "\"\\\t\n\r";
    assert special[0] == '"' && special[1] == '\\' && special[2] == '\t' && special[3] == '\n' && special[4] == '\r';
  }

  function EscapedAll(st: Style, s: string): string {
    if s == "" then "" else Escaped(st, s[0]) + EscapedAll(st, s[1..])
  }

  function DebugStr(st: Style, s: string): string {
    "\"" + (EscapedAll(st, s) + "\"")
  }

  // Strings of printable characters, tabs and line breaks.
  predicate Tame(st: Style, s: string) {
    forall i :: 0 <= i < |s| ==> s[i] in "\"\\\t\n\r" || (s[i] != '\0' && st.printable(s[i]))
  }

  // ── parsing: basic strings ───────────────────────────────────────────────

  function HexDigit(c: char): Option<nat> {
    if '0' <= c <= '9' then Some(c as int - '0' as int)
    else if 'a' <= c <= 'f' then Some(c as int - 'a' as int + 10)
    else if 'A' <= c <= 'F' then Some(c as int - 'A' as int + 10)
    else None
  }

  function HexValue(s: string): Option<nat>
    decreases |s|
  {
    if s == "" then Some(0) else
      var (high, low) := (HexValue(s[..|s| - 1]), HexDigit(s[|s| - 1]));
      if high.Some? && low.Some? then Some(16 * high.value + low.value) else None
  }

  // \uXXXX and \UXXXXXXXX name a Unicode scalar value.
  function Scalar(s: string, n: nat): Option<char> {
    if |s| < n then None else
      var v := HexValue(s[..n]);
      if v.Some? && (v.value < 0xD800 || 0xE000 <= v.value < 0x11_0000) then Some(v.value as char) else None
  }

  datatype Read<T> = Read(value: T, rest: string)

  // One escape sequence after its backslash.
  function Escape(s: string): (r: Option<Read<char>>)
    ensures r.Some? ==> |r.value.rest| < |s|
  {
    if s == "" then None
    else if s[0] == 'b' then Some(Read('\U{0008}', s[1..]))
    else if s[0] == 't' then Some(Read('\t', s[1..]))
    else if s[0] == 'n' then Some(Read('\n', s[1..]))
    else if s[0] == 'f' then Some(Read('\U{000C}', s[1..]))
    else if s[0] == 'r' then Some(Read('\r', s[1..]))
    else if s[0] == '"' then Some(Read('"', s[1..]))
    else if s[0] == '\\' then Some(Read('\\', s[1..]))
    else if s[0] == 'u' && Scalar(s[1..], 4).Some? then Some(Read(Scalar(s[1..], 4).value, s[5..]))
    else if s[0] == 'U' && Scalar(s[1..], 8).Some? then Some(Read(Scalar(s[1..], 8).value, s[9..]))
    else None
  }

  // Only tabs may stand for themselves among the control characters.
  predicate Control(c: char) {
    (c < ' ' && c != '\t') || c == '\U{007F}'
  }

  // One character of a string: itself, or an escape.
  function Char(s: string): (r: Option<Read<char>>)
    ensures r.Some? ==> |r.value.rest| < |s|
  {
    if s == "" || s[0] == '"' || Control(s[0]) then None
    else if s[0] == '\\' then Escape(s[1..])
    else Some(Read(s[0], s[1..]))
  }

  // A number in hexadecimal digits.
  function Hex(n: nat, width: nat): string {
    if width == 0 then "" else Hex(n / 16, width - 1) + [HexChar(n % 16)]
  }

  function HexChar(d: nat): char
    requires d < 16
  {
    if d < 10 then ('0' as int + d) as char else ('a' as int + d - 10) as char
  }

  function Power(width: nat): nat {
    if width == 0 then 1 else 16 * Power(width - 1)
  }

  lemma {:induction false} HexReads(n: nat, width: nat)
    requires n < Power(width)
    ensures |Hex(n, width)| == width && HexValue(Hex(n, width)) == Some(n)
  {
    if width != 0 {
      HexReads(n / 16, width - 1);
      var s := Hex(n, width);
      assert s[..|s| - 1] == Hex(n / 16, width - 1) && s[|s| - 1] == HexChar(n % 16);
    }
  }

  /** Every character can be written as an escape of eight digits, and of four if these suffice. */
  lemma {:induction false} UnicodeReads(c: char, rest: string)
    ensures Char("\\U" + Hex(c as int, 8) + rest) == Some(Read(c, rest))
    ensures c as int < 0x1_0000 ==> Char("\\u" + Hex(c as int, 4) + rest) == Some(Read(c, rest))
  {
    EightReads(c, rest);
    if c as int < 0x1_0000 { FourReads(c, rest); }
  }

  lemma {:induction false} EightReads(c: char, rest: string)
    ensures Char("\\U" + Hex(c as int, 8) + rest) == Some(Read(c, rest))
  {
    var h := Hex(c as int, 8);
    assert Power(8) == 0x1_0000_0000;
    HexReads(c as int, 8);
    var s := "\\U" + h + rest;
    assert s[1..] == "U" + (h + rest) && s[1..][1..] == h + rest;
    assert (h + rest)[..8] == h && s[1..][9..] == rest;
  }

  lemma {:induction false} FourReads(c: char, rest: string)
    requires c as int < 0x1_0000
    ensures Char("\\u" + Hex(c as int, 4) + rest) == Some(Read(c, rest))
  {
    var h := Hex(c as int, 4);
    assert Power(4) == 0x1_0000;
    HexReads(c as int, 4);
    var s := "\\u" + h + rest;
    assert s[1..] == "u" + (h + rest) && s[1..][1..] == h + rest;
    assert (h + rest)[..4] == h && s[1..][5..] == rest;
  }

  // The rest of a string after its opening quote.
  function StringTail(s: string): (r: Option<Read<string>>)
    ensures r.Some? ==> |r.value.value| + 1 + |r.value.rest| <= |s|
    decreases |s|
  {
    if s != "" && s[0] == '"' then Some(Read("", s[1..])) else
      var c := Char(s);
      if c.None? then None else
        var tail := StringTail(c.value.rest);
        if tail.None? then None else Some(Read([c.value.value] + tail.value.value, tail.value.rest))
  }

  function BasicString(s: string): (r: Option<Read<string>>)
    ensures r.Some? ==> |r.value.rest| < |s|
  {
    if "\"" <= s then StringTail(s[1..]) else None
  }

  // ── strings read back ────────────────────────────────────────────────────

  lemma {:induction false} EscapedReads(st: Style, c: char, rest: string)
    requires Sensible(st)
    ensures var s := Escaped(st, c) + rest;
      && Escaped(st, c) != "" && s[0] != '"'
      && Char(s) == if Tame(st, [c]) then Some(Read(c, rest)) else None
  {
    var s := Escaped(st, c) + rest;
    assert Tame(st, [c]) <==> [c][0] in "\"\\\t\n\r" || ([c][0] != '\0' && st.printable([c][0]));
    if c in "\"\\\t\n\r" {
      assert s[0] == '\\' && s[1..] == [Escaped(st, c)[1]] + rest;
      assert s[1..][1..] == rest;
    } else if c == '\0' {
      assert s[0] == '\\' && s[1] == '0';
    } else if st.printable(c) {
      assert s[1..] == rest;
    } else {
      assert s[0] == '\\' && s[1] == 'u' && s[2] == '{';
      assert s[2..][..1][0] == '{';
      NoHex(s[2..]);
    }
  }

  lemma {:induction false} NoHex(s: string)
    requires s != "" && s[0] == '{'
    ensures Scalar(s, 4).None?
  {
    if |s| >= 4 {
      assert s[..4][..3] == s[..3] && s[..3][..2] == s[..2] && s[..2][..1] == s[..1] && s[..1][0] == '{';
      assert HexDigit('{').None?;
      assert HexValue(s[..1]).None?;
      assert HexValue(s[..2]).None?;
      assert HexValue(s[..3]).None?;
    }
  }

  lemma {:induction false} TameCons(st: Style, s: string)
    requires s != ""
    ensures Tame(st, s) <==> Tame(st, [s[0]]) && Tame(st, s[1..])
  {
    assert forall i :: 0 < i < |s| ==> s[i] == s[1..][i - 1];
    assert [s[0]][0] == s[0];
  }

  lemma {:induction false} TailReads(st: Style, s: string, rest: string)
    requires Sensible(st)
    ensures StringTail(EscapedAll(st, s) + "\"" + rest) == if Tame(st, s) then Some(Read(s, rest)) else None
  {
    var text := EscapedAll(st, s) + "\"" + rest;
    if s == "" {
      assert text == "\"" + rest;
    } else {
      var more := EscapedAll(st, s[1..]) + "\"" + rest;
      assert text == Escaped(st, s[0]) + more;
      EscapedReads(st, s[0], more);
      TailReads(st, s[1..], rest);
      TameCons(st, s);
      assert [s[0]] + s[1..] == s;
    }
  }

  /** What Debug prints is read back as the same string exactly when it consists of printable characters,
      tabs and line breaks; otherwise it is not TOML at all. */
  lemma {:induction false} StringReadsBack(st: Style, s: string, rest: string)
    requires Sensible(st)
    ensures BasicString(DebugStr(st, s) + rest) == if Tame(st, s) then Some(Read(s, rest)) else None
  {
    var text := DebugStr(st, s) + rest;
    assert text == "\"" + (EscapedAll(st, s) + "\"" + rest);
    assert text[1..] == EscapedAll(st, s) + "\"" + rest;
    TailReads(st, s, rest);
  }

  lemma {:induction false} OneLine(st: Style, s: string)
    requires Sensible(st) && forall c :: '\n' !in st.hex(c)
    ensures '\n' !in EscapedAll(st, s)
  {
    if s != "" {
      OneLine(st, s[1..]);
      assert '\n' !in Escaped(st, s[0]);
    }
  }

  // ── keys ─────────────────────────────────────────────────────────────────

  predicate IsBare(c: char) {
    'a' <= c <= 'z' || 'A' <= c <= 'Z' || '0' <= c <= '9' || c == '_' || c == '-'
  }

  function BareLen(s: string): (n: nat)
    ensures n <= |s|
    ensures forall i :: 0 <= i < n ==> IsBare(s[i])
    ensures n < |s| ==> !IsBare(s[n])
  {
    if s != "" && IsBare(s[0]) then 1 + BareLen(s[1..]) else 0
  }

  // A literal string after its opening quote.
  function LiteralTail(s: string): Option<Read<string>> {
    var q := Find(s, '\'');
    if q.None? || (exists i :: 0 <= i < q.value && Control(s[i])) then None else Some(Read(s[..q.value], s[q.value + 1..]))
  }

  // A simple key: quoted either way, or bare.
  function Key(s: string): Option<Read<string>> {
    if "\"" <= s then BasicString(s)
    else if "'" <= s then LiteralTail(s[1..])
    else if BareLen(s) == 0 then None
    else Some(Read(s[..BareLen(s)], s[BareLen(s)..]))
  }

  // quote_key puts the key between quotes as it is.
  function QuoteKey(k: string): string {
    if '.' in k || '-' in k then "\"" + k + "\"" else k
  }

  // Between quotes a key must not need escaping; without, it must be bare.
  predicate KeyOk(k: string) {
    if '.' in k || '-' in k then Verbatim(k) else k != "" && BareLen(k) == |k|
  }

  predicate Verbatim(s: string) {
    forall i :: 0 <= i < |s| ==> s[i] != '"' && s[i] != '\\' && !Control(s[i])
  }

  // A string that is as long as its text has no escapes.
  lemma {:induction false} TailVerbatim(s: string, v: string, rest: string)
    ensures StringTail(s) == Some(Read(v, rest)) && |s| == |v| + 1 + |rest| <==> s == v + "\"" + rest && Verbatim(v)
    decreases |s|
  {
    if v != "" && !(s != "" && s[0] == '"') {
      TailVerbatimStep(s, v, rest);
    }
  }

  lemma {:induction false} TailVerbatimStep(s: string, v: string, rest: string)
    requires v != "" && !(s != "" && s[0] == '"')
    ensures StringTail(s) == Some(Read(v, rest)) && |s| == |v| + 1 + |rest| <==> s == v + "\"" + rest && Verbatim(v)
    decreases |s|, 0
  {
    if s == v + "\"" + rest && Verbatim(v) {
      assert s[0] == v[0] && s[1..] == v[1..] + "\"" + rest;
      assert forall i :: 0 <= i < |v| - 1 ==> v[1..][i] == v[i + 1];
      TailVerbatim(s[1..], v[1..], rest);
      assert v == [v[0]] + v[1..];
    }
    if StringTail(s) == Some(Read(v, rest)) && |s| == |v| + 1 + |rest| {
      var c := Char(s).value;
      var tail := StringTail(c.rest).value;
      assert v == [c.value] + tail.value && tail.value == v[1..];
      assert s[0] != '\\' && c.rest == s[1..];
      TailVerbatim(s[1..], v[1..], rest);
      assert s == [s[0]] + s[1..];
      assert forall i :: 1 <= i < |v| ==> v[i] == v[1..][i - 1];
    }
  }

  lemma {:induction false} BareStops(k: string, rest: string)
    requires rest != "" && !IsBare(rest[0])
    ensures BareLen(k + rest) == BareLen(k)
  {
    if k == "" {
      assert k + rest == rest;
    } else {
      assert (k + rest)[1..] == k[1..] + rest;
      BareStops(k[1..], rest);
    }
  }

  lemma {:induction false} QuotedKey(k: string, rest: string)
    ensures Key("\"" + k + "\"" + rest) == Some(Read(k, rest)) <==> Verbatim(k)
  {
    var s := "\"" + k + "\"" + rest;
    assert s[1..] == k + "\"" + rest;
    TailVerbatim(s[1..], k, rest);
  }

  lemma {:induction false} BareKey(k: string, rest: string)
    requires rest != "" && rest[0] == ' '
    ensures Key(k + rest) == Some(Read(k, rest)) <==> k != "" && BareLen(k) == |k|
  {
    var s := k + rest;
    BareStops(k, rest);
    assert s[..|k|] == k && s[|k|..] == rest;
    if k != "" && k[0] == '"' {
      assert |s[1..]| < |k| + 1 + |rest|;
    } else if k != "" && k[0] == '\'' {
      assert LiteralTail(s[1..]).Some? ==> '\'' !in LiteralTail(s[1..]).value.value;
    }
  }

  /** A key is read back as itself exactly when it is bare or, having a dot or a dash, when it holds
      no quote, no backslash and no control character. */
  lemma {:induction false} KeyReadsBack(k: string, value: string)
    ensures Key(QuoteKey(k) + (" = " + value)) == Some(Read(k, " = " + value)) <==> KeyOk(k)
  {
    if '.' in k || '-' in k {
      QuotedKey(k, " = " + value);
    } else {
      BareKey(k, " = " + value);
    }
  }

  /** A key between single quotes is read as it stands. */
  lemma {:induction false} LiteralReads(key: string, rest: string)
    requires '\'' !in key && forall i :: 0 <= i < |key| ==> !Control(key[i])
    ensures Key("'" + key + "'" + rest) == Some(Read(key, rest))
  {
    var s := "'" + key + "'" + rest;
    var body := key + ['\''] + rest;
    assert s == "'" + body && s[0] == '\'' && s[1..] == body;
    FindAt(key, '\'', rest);
    assert body[..|key|] == key && body[|key| + 1..] == rest;
    assert forall i :: 0 <= i < |key| ==> body[i] == key[i];
  }
}
