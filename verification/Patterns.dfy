/** The repository's regular expressions as matchers at the head of a string, and
    the leftmost, non-overlapping scan that captures_iter and replace_all perform. */
module Patterns {
  import opened Prelude
  import opened Text

  datatype Shelf = Services | Packages | Databases

  datatype Pattern =
    | ValueRef            // {{ A.B.C }} and {{ A.B.C | b64encode }}
    | SetRef              // {{ A.B.C }} only
    | SnapRef(shelf: Shelf) // {{ services["id"] }} and its two siblings
    | VaultRef            // vault(KEY)
    | EnvRef              // $NAME and ${NAME}

  datatype Cap = Cap(name: string, b64: bool)
  datatype Hit = Hit(cap: Cap, rest: string)

  predicate IsWord(c: char) {
    'a' <= c <= 'z' || 'A' <= c <= 'Z' || '0' <= c <= '9' || c == '_'
  }

  function KeyTail(s: string): (n: nat)
    ensures n <= |s|
    ensures forall i :: 0 <= i < n ==> IsWord(s[i]) || s[i] == '.'
  {
    if s == "" then 0
    else if IsWord(s[0]) || (s[0] == '.' && 1 < |s| && IsWord(s[1])) then 1 + KeyTail(s[1..])
    else 0
  }

  // The length of [A-Za-z0-9_]+(?:\.[A-Za-z0-9_]+)* at the head of s; 0 when there is none.
  function KeyLen(s: string): (n: nat)
    ensures n <= |s|
  {
    if s != "" && IsWord(s[0]) then KeyTail(s) else 0
  }

  predicate ValidKey(key: string) {
    key != "" && KeyLen(key) == |key|
  }

  const OPEN: string := "{{"
  const CLOSE: string := "}}"
  const FILTER: string := "b64encode"
  const VAULT: string := "vault("

  function ShelfName(shelf: Shelf): string {
    match shelf
    case Services => "services"
    case Packages => "packages"
    case Databases => "databases"
  }

  function Close(body: string, name: string, b64: bool): (r: Option<Hit>)
    ensures r.Some? ==> |r.value.rest| < |body|
  {
    if CLOSE <= body then Some(Hit(Cap(name, b64), body[2..])) else None
  }

  function FilterTail(c: string, name: string): (r: Option<Hit>)
    ensures r.Some? ==> |r.value.rest| < |c|
  {
    if FILTER <= c then Close(TrimStart(c[|FILTER|..]), name, true) else None
  }

  function ValueTail(b: string, name: string, filters: bool): (r: Option<Hit>)
    ensures r.Some? ==> |r.value.rest| < |b|
  {
    if filters && "|" <= b then FilterTail(TrimStart(b[1..]), name) else Close(b, name, false)
  }

  function ValueBody(a: string, filters: bool): (r: Option<Hit>)
    ensures r.Some? ==> |r.value.rest| < |a|
  {
    var n := KeyLen(a);
    if n == 0 then None else ValueTail(TrimStart(a[n..]), a[..n], filters)
  }

  function MatchValue(s: string, filters: bool): (r: Option<Hit>)
    ensures r.Some? ==> |r.value.rest| < |s|
  {
    if OPEN <= s then ValueBody(TrimStart(s[|OPEN|..]), filters) else None
  }

  function SnapTail(b: string): (r: Option<Hit>)
    ensures r.Some? ==> |r.value.rest| < |b|
  {
    var q := Find(b, '"');
    if q.None? || q.value == 0 || !("\"]" <= b[q.value..]) then None
    else Close(TrimStart(b[q.value + 2..]), b[..q.value], false)
  }

  function SnapBody(a: string, shelf: Shelf): (r: Option<Hit>)
    ensures r.Some? ==> |r.value.rest| < |a|
  {
    var head := ShelfName(shelf) + "[\"";
    if head <= a then SnapTail(a[|head|..]) else None
  }

  function MatchSnap(s: string, shelf: Shelf): (r: Option<Hit>)
    ensures r.Some? ==> |r.value.rest| < |s|
  {
    if OPEN <= s then SnapBody(TrimStart(s[|OPEN|..]), shelf) else None
  }

  function MatchVault(s: string): (r: Option<Hit>)
    ensures r.Some? ==> |r.value.rest| < |s|
  {
    if !(VAULT <= s) then None else
      var b := s[|VAULT|..];
      var q := Find(b, ')');
      if q.None? || q.value == 0 then None
      else Some(Hit(Cap(b[..q.value], false), b[q.value + 1..]))
  }

  predicate IsEnvHead(c: char) {
    'A' <= c <= 'Z' || c == '_'
  }

  function EnvLen(s: string): (n: nat)
    ensures n <= |s|
  {
    if s != "" && (IsEnvHead(s[0]) || '0' <= s[0] <= '9') then 1 + EnvLen(s[1..]) else 0
  }

  function MatchEnv(s: string): (r: Option<Hit>)
    ensures r.Some? ==> |r.value.rest| < |s|
  {
    if !("$" <= s) then None else
      var a := if "{" <= s[1..] then s[2..] else s[1..];
      if a == "" || !IsEnvHead(a[0]) then None else
        var n := EnvLen(a);
        var rest := if "}" <= a[n..] then a[n + 1..] else a[n..];
        Some(Hit(Cap(a[..n], false), rest))
  }

  function Match(p: Pattern, s: string): (r: Option<Hit>)
    ensures r.Some? ==> |r.value.rest| < |s|
  {
    match p
    case ValueRef => MatchValue(s, true)
    case SetRef => MatchValue(s, false)
    case SnapRef(shelf) => MatchSnap(s, shelf)
    case VaultRef => MatchVault(s)
    case EnvRef => MatchEnv(s)
  }

  // Regex::captures_iter
  function Captures(p: Pattern, s: string): seq<Cap>
    decreases |s|
  {
    if s == "" then []
    else match Match(p, s)
      case Some(hit) => [hit.cap] + Captures(p, hit.rest)
      case None => Captures(p, s[1..])
  }

  // Regex::replace_all
  function ReplaceAll(p: Pattern, f: Cap -> string, s: string): string
    decreases |s|
  {
    if s == "" then ""
    else match Match(p, s)
      case Some(hit) => f(hit.cap) + ReplaceAll(p, f, hit.rest)
      case None => [s[0]] + ReplaceAll(p, f, s[1..])
  }
}
