/** The string operations of the Rust standard library that the repository relies on. */
module Text {
  import opened Prelude

  // White_Space in Unicode: what str::trim and the regex class \s mean.
  predicate IsSpace(c: char) {
    || '\U{0009}' <= c <= '\U{000D}' || c == ' ' || c == '\U{0085}' || c == '\U{00A0}'
    || c == '\U{1680}' || '\U{2000}' <= c <= '\U{200A}' || c == '\U{2028}' || c == '\U{2029}'
    || c == '\U{202F}' || c == '\U{205F}' || c == '\U{3000}'
  }

  predicate AllSpace(s: string) {
    forall i :: 0 <= i < |s| ==> IsSpace(s[i])
  }

  function TrimStart(s: string): (r: string)
    ensures |r| <= |s|
    ensures r != "" ==> !IsSpace(r[0])
  {
    if s != "" && IsSpace(s[0]) then TrimStart(s[1..]) else s
  }

  function TrimEnd(s: string): (r: string)
    ensures |r| <= |s|
    ensures r != "" ==> !IsSpace(r[|r| - 1])
  {
    if s != "" && IsSpace(s[|s| - 1]) then TrimEnd(s[..|s| - 1]) else s
  }

  function Trim(s: string): string {
    TrimEnd(TrimStart(s))
  }

  lemma {:induction false} TrimStartCuts(s: string)
    ensures |TrimStart(s)| <= |s|
    ensures s == s[..|s| - |TrimStart(s)|] + TrimStart(s) && AllSpace(s[..|s| - |TrimStart(s)|])
  {
    if s != "" && IsSpace(s[0]) {
      TrimStartCuts(s[1..]);
      var n := |s| - |TrimStart(s)|;
      assert s[..n] == [s[0]] + s[1..][..n - 1] && s[n..] == s[1..][n - 1..];
    }
  }

  lemma {:induction false} TrimEndCuts(s: string)
    ensures |TrimEnd(s)| <= |s|
    ensures TrimEnd(s) == s[..|TrimEnd(s)|] && AllSpace(s[|TrimEnd(s)|..])
  {
    if s != "" && IsSpace(s[|s| - 1]) {
      TrimEndCuts(s[..|s| - 1]);
      var n := |TrimEnd(s)|;
      assert s[n..] == s[..|s| - 1][n..] + [s[|s| - 1]];
    }
  }

  lemma {:induction false} Rejoined(s: string, n: nat)
    requires n <= |s|
    ensures s == s[..n] + s[n..]
  {
  }

  lemma {:induction false} TrimEnds(s: string)
    ensures Trim(s) != "" ==> !IsSpace(Trim(s)[0]) && !IsSpace(Trim(s)[|Trim(s)| - 1])
  {
    TrimEndCuts(TrimStart(s));
  }

  lemma {:induction false} EndCut(t: string) returns (after: string)
    ensures t == TrimEnd(t) + after && AllSpace(after)
  {
    after := t[|TrimEnd(t)|..];
    TrimEndCuts(t);
    Rejoined(t, |TrimEnd(t)|);
  }

  /** Trimming takes white space off both ends, as much as there is, and nothing else. */
  lemma {:induction false} TrimCuts(s: string) returns (before: string, after: string)
    ensures s == before + Trim(s) + after && AllSpace(before) && AllSpace(after)
    ensures Trim(s) != "" ==> !IsSpace(Trim(s)[0]) && !IsSpace(Trim(s)[|Trim(s)| - 1])
  {
    before := s[..|s| - |TrimStart(s)|];
    TrimStartCuts(s);
    after := EndCut(TrimStart(s));
    Assoc(before, Trim(s), after);
    TrimEnds(s);
  }

  // trim_end_matches('\r')
  function TrimEndCr(s: string): (r: string)
    ensures r <= s
  {
    if s != "" && s[|s| - 1] == '\r' then TrimEndCr(s[..|s| - 1]) else s
  }

  function StripPrefix(s: string, p: string): Option<string> {
    if p <= s then Some(s[|p|..]) else None
  }

  // str::find for one character.
  function Find(s: string, c: char): (r: Option<nat>)
    ensures r.Some? ==> r.value < |s| && s[r.value] == c
    ensures r.Some? ==> forall i :: 0 <= i < r.value ==> s[i] != c
    ensures r.None? ==> c !in s
  {
    if s == "" then None
    else if s[0] == c then Some(0)
    else
      var r := Find(s[1..], c);
      if r.None? then None else Some(r.value + 1)
  }

  function SplitOnce(s: string, c: char): (r: Option<(string, string)>)
    ensures r.Some? ==> s == r.value.0 + [c] + r.value.1 && c !in r.value.0
    ensures r.None? ==> c !in s
  {
    var i := Find(s, c);
    if i.None? then None else Some((s[..i.value], s[i.value + 1..]))
  }

  lemma {:induction false} FindAt(a: string, c: char, b: string)
    requires c !in a
    ensures Find(a + [c] + b, c) == Some(|a|)
  {
    var s := a + [c] + b;
    if a == "" {
      assert s[0] == c;
    } else {
      assert s[0] == a[0] && s[1..] == a[1..] + [c] + b;
      FindAt(a[1..], c, b);
    }
  }

  lemma {:induction false} FindBefore(b: string, c: char, x: string)
    requires c in b
    ensures Find(b + x, c) == Find(b, c)
  {
    assert (b + x)[0] == b[0];
    if b[0] != c {
      assert (b + x)[1..] == b[1..] + x;
      FindBefore(b[1..], c, x);
    }
  }

  lemma {:induction false} SplitOnceAt(a: string, c: char, b: string)
    requires c !in a
    ensures SplitOnce(a + [c] + b, c) == Some((a, b))
  {
    FindAt(a, c, b);
    var s := a + [c] + b;
    assert s[..|a|] == a && s[|a| + 1..] == b;
  }

  lemma {:induction false} Assoc(a: string, b: string, c: string)
    ensures a + (b + c) == a + b + c
  {
  }

  predicate Contains(s: string, p: string) {
    exists i :: 0 <= i <= |s| - |p| && p <= s[i..]
  }

  // The newline-terminated lines of s, without their newlines, and what follows the last one.
  function Terminated(s: string): (r: seq<string>)
    decreases |s|
  {
    var i := Find(s, '\n');
    if i.None? then [] else [s[..i.value]] + Terminated(s[i.value + 1..])
  }

  function Unterminated(s: string): (r: string)
    ensures '\n' !in r
    decreases |s|
  {
    var i := Find(s, '\n');
    if i.None? then s else Unterminated(s[i.value + 1..])
  }

  lemma {:induction false} TerminatedCons(line: string, rest: string)
    requires '\n' !in line
    ensures Terminated(line + "\n" + rest) == [line] + Terminated(rest)
    ensures Unterminated(line + "\n" + rest) == Unterminated(rest)
  {
    var s := line + "\n" + rest;
    FindAt(line, '\n', rest);
    var i := |line|;
    assert s == line + ['\n'] + rest;
    assert s[..i] == line && s[i + 1..] == rest;
  }

  lemma {:induction false} TerminatedAppend(a: string, b: string)
    ensures Terminated(a + b) == Terminated(a) + Terminated(Unterminated(a) + b)
    ensures Unterminated(a + b) == Unterminated(Unterminated(a) + b)
    decreases |a|
  {
    var i := Find(a, '\n');
    if i.Some? {
      var line, rest := a[..i.value], a[i.value + 1..];
      assert a == line + "\n" + rest;
      assert a + b == line + "\n" + (rest + b);
      TerminatedCons(line, rest + b);
      TerminatedAppend(rest, b);
    }
  }

  function StripCr(s: string): string {
    if s != "" && s[|s| - 1] == '\r' then s[..|s| - 1] else s
  }

  function StripCrAll(lines: seq<string>): (r: seq<string>)
    ensures |r| == |lines|
    ensures forall i :: 0 <= i < |r| ==> r[i] == StripCr(lines[i])
  {
    if lines == [] then [] else [StripCr(lines[0])] + StripCrAll(lines[1..])
  }

  // str::lines: "\n" or "\r\n" ends a line, and an empty last line is not reported.
  function Lines(s: string): seq<string> {
    StripCrAll(Terminated(s)) + (if Unterminated(s) == "" then [] else [Unterminated(s)])
  }

  lemma {:induction false} StripCrCons(line: string, lines: seq<string>)
    ensures StripCrAll([line] + lines) == [StripCr(line)] + StripCrAll(lines)
  {
    assert ([line] + lines)[1..] == lines;
  }

  lemma {:induction false} LinesCons(line: string, rest: string)
    requires '\n' !in line
    ensures Lines(line + "\n" + rest) == [StripCr(line)] + Lines(rest)
  {
    TerminatedCons(line, rest);
    StripCrCons(line, Terminated(rest));
    var back := if Unterminated(rest) == "" then [] else [Unterminated(rest)];
    assert [StripCr(line)] + StripCrAll(Terminated(rest)) + back == [StripCr(line)] + (StripCrAll(Terminated(rest)) + back);
  }

  lemma {:induction false} StripsOne(line: string)
    ensures StripCr(line + "\r") == line
    ensures line == "" || line[|line| - 1] != '\r' ==> StripCr(line) == line
  {
    assert (line + "\r")[..|line|] == line;
  }

  /** What the lines of a text are: up to each line feed, one carriage return in front of it dropped, and what is left at
      the end as it is. */
  lemma {:induction false} LinesAre(line: string, rest: string)
    requires '\n' !in line
    ensures Lines(line) == if line == "" then [] else [line]
    ensures Lines(line + "\r" + "\n" + rest) == [line] + Lines(rest)
    ensures line == "" || line[|line| - 1] != '\r' ==> Lines(line + "\n" + rest) == [line] + Lines(rest)
  {
    assert Find(line, '\n').None?;
    LinesCons(line, rest);
    LinesCons(line + "\r", rest);
    StripsOne(line);
  }

  lemma {:induction false} TrimEndCrCuts(s: string)
    ensures TrimEndCr(s) == "" || TrimEndCr(s)[|TrimEndCr(s)| - 1] != '\r'
    ensures forall i :: |TrimEndCr(s)| <= i < |s| ==> s[i] == '\r'
  {
    if s != "" && s[|s| - 1] == '\r' {
      TrimEndCrCuts(s[..|s| - 1]);
    }
  }

  lemma {:induction false} TrimStartSkips(w: string, s: string)
    requires AllSpace(w)
    ensures TrimStart(w + s) == TrimStart(s)
  {
    if w == "" {
      assert w + s == s;
    } else {
      assert (w + s)[0] == w[0] && (w + s)[1..] == w[1..] + s;
      TrimStartSkips(w[1..], s);
    }
  }

  lemma TrimNone(s: string)
    requires s != "" && !IsSpace(s[0]) && !IsSpace(s[|s| - 1])
    ensures Trim(s) == s
  {
  }
}
