/** Shared vocabulary: optional values, the dynamic `any` values stored in
    maps, Go string helpers (`strings.TrimSpace`, `strings.HasPrefix`,
    byte length, the first index of a separator), ASCII character classes,
    decimal formatting and the time representation. */
module Base {

  datatype Option<+T> = None | Some(value: T)

  /** A value of Go's `any` as it occurs in the profile and attribute maps. */
  datatype Value = Nil | Str(s: string) | Num(n: int) | Bool(b: bool) | Obj(fields: map<string, Value>)

  // ---------------------------------------------------------------- time

  /** `time.Time` as nanoseconds since the Unix epoch; `time.Duration` in nanoseconds. */
  type Time = int
  type Duration = int

  const Second: int := 1_000_000_000
  const Minute: int := 60 * Second
  const Hour: int := 60 * Minute

  /** The zero `time.Time` (January 1, year 1, UTC). */
  const ZeroTime: Time := -62135596800 * Second

  /** `t.Unix()`: whole seconds, rounded towards minus infinity. */
  function Unix(t: Time): (s: int)
    ensures s * Second <= t < (s + 1) * Second
  {
    t / Second
  }

  /** A duration of at least one second moves the Unix second forward. */
  lemma {:induction false} UnixAdvances(t: Time, d: Duration)
    requires d >= Second
    ensures Unix(t) < Unix(t + d)
  {
  }

  /** `time.Unix(s, 0)`. */
  function FromUnix(s: int): Time
  {
    s * Second
  }

  // ---------------------------------------------------------- characters

  predicate IsUpper(c: char) { 'A' <= c <= 'Z' }
  predicate IsLower(c: char) { 'a' <= c <= 'z' }
  predicate IsDigit(c: char) { '0' <= c <= '9' }
  predicate IsLetter(c: char) { IsUpper(c) || IsLower(c) }
  predicate IsAlnum(c: char) { IsLetter(c) || IsDigit(c) }

  /** `unicode.ToLower` restricted to ASCII letters. */
  function ToLower(c: char): (r: char)
    ensures IsUpper(c) ==> IsLower(r) && r as int == c as int + 32
    ensures !IsUpper(c) ==> r == c
  {
    if IsUpper(c) then (c as int + 32) as char else c
  }

  /** `unicode.IsSpace`: the six ASCII spaces, U+0085, U+00A0 and the
      Unicode space separators. */
  predicate IsSpace(c: char)
  {
    c == ' ' || c == '\t' || c == '\n' || c == '\r' || c == '\U{000B}' || c == '\U{000C}'
    || c == '\U{0085}' || c == '\U{00A0}' || c == '\U{1680}'
    || ('\U{2000}' <= c <= '\U{200A}')
    || c == '\U{2028}' || c == '\U{2029}' || c == '\U{202F}' || c == '\U{205F}' || c == '\U{3000}'
  }

  // ------------------------------------------------------------- strings

  /** `len(s)` in Go: the length of the UTF-8 encoding. */
  function Utf8Len(s: string): (n: nat)
    ensures n >= |s|
    ensures (forall i :: 0 <= i < |s| ==> s[i] < '\U{0080}') ==> n == |s|
  {
    if s == [] then 0
    else
      var w := if s[0] < '\U{0080}' then 1 else if s[0] < '\U{0800}' then 2 else if s[0] < '\U{10000}' then 3 else 4;
      w + Utf8Len(s[1..])
  }

  /** The byte length of a concatenation is the sum of the byte lengths. */
  lemma {:induction false} Utf8LenAppend(a: string, b: string)
    ensures Utf8Len(a + b) == Utf8Len(a) + Utf8Len(b)
  {
    if a == [] {
      assert a + b == b;
    } else {
      assert (a + b)[0] == a[0] && (a + b)[1..] == a[1..] + b;
      Utf8LenAppend(a[1..], b);
    }
  }

  predicate HasPrefix(s: string, p: string)
  {
    |p| <= |s| && s[..|p|] == p
  }

  /** `strings.HasSuffix`. */
  predicate HasSuffix(s: string, p: string)
  {
    |p| <= |s| && s[|s| - |p|..] == p
  }

  function TrimLeft(s: string): (r: string)
    ensures |r| <= |s| && r == s[|s| - |r|..]
    ensures r == [] || !IsSpace(r[0])
    ensures forall i :: 0 <= i < |s| - |r| ==> IsSpace(s[i])
  {
    if s != [] && IsSpace(s[0]) then TrimLeft(s[1..]) else s
  }

  function TrimRight(s: string): (r: string)
    ensures |r| <= |s| && r == s[..|r|]
    ensures r == [] || !IsSpace(r[|r| - 1])
    ensures forall i :: |r| <= i < |s| ==> IsSpace(s[i])
  {
    if s != [] && IsSpace(s[|s| - 1]) then TrimRight(s[..|s| - 1]) else s
  }

  /** `strings.TrimSpace`. */
  function TrimSpace(s: string): (r: string)
    ensures r == [] || (!IsSpace(r[0]) && !IsSpace(r[|r| - 1]))
    ensures |r| <= |s|
  {
    TrimRight(TrimLeft(s))
  }

  /** A string is its own trimmed form exactly when it neither starts nor
      ends with white space. */
  lemma {:induction false} TrimSpaceFixpoint(s: string)
    ensures TrimSpace(s) == s <==> (s == [] || (!IsSpace(s[0]) && !IsSpace(s[|s| - 1])))
  {
    if s != [] && !IsSpace(s[0]) && !IsSpace(s[|s| - 1]) {
      assert TrimLeft(s) == s;
      assert TrimRight(s) == s;
    }
  }

  /** Trimming twice is trimming once. */
  lemma {:induction false} TrimSpaceIdempotent(s: string)
    ensures TrimSpace(TrimSpace(s)) == TrimSpace(s)
  {
    TrimSpaceFixpoint(TrimSpace(s));
  }

  /** Trimming keeps the byte length exactly when it removes nothing, so
      `len(strings.TrimSpace(v)) != len(v)` says `v` has surrounding space. */
  lemma {:induction false} TrimSpaceKeepsLength(s: string)
    ensures Utf8Len(TrimSpace(s)) == Utf8Len(s) <==> TrimSpace(s) == s
  {
    var l := TrimLeft(s);
    var r := TrimRight(l);
    var i := |s| - |l|;
    assert s == s[..i] + l;
    assert l == r + l[|r|..];
    Utf8LenAppend(s[..i], l);
    Utf8LenAppend(r, l[|r|..]);
    if r != s {
      assert i > 0 || |r| < |l|;
    }
  }

  /** Index of the first occurrence of `c` in `s`. */
  function IndexOf(s: string, c: char): (i: nat)
    requires c in s
    ensures i < |s| && s[i] == c
    ensures forall j :: 0 <= j < i ==> s[j] != c
  {
    if s[0] == c then 0 else 1 + IndexOf(s[1..], c)
  }

  /** `fmt.Sprintf("%d", n)` for a non-negative number. */
  function Decimal(n: nat): (r: string)
    ensures r != []
    ensures forall i :: 0 <= i < |r| ==> IsDigit(r[i])
  {
    var d := ['0' + (n % 10) as char];
    if n < 10 then d else Decimal(n / 10) + d
  }
}
