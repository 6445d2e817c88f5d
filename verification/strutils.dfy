/** pkg/strutils: `Ptr`, the exact-match `OneOf`, `SnakeCase` over ASCII
    letters, and `RandStr`, whose random index source is an input. */
module StrUtils {
  import opened Base

  /** `Ptr`: a pointer to a copy of `s`; a present value here. */
  function Ptr(s: string): (p: Option<string>)
    ensures p.Some? && p.value == s
  {
    Some(s)
  }

  /** `OneOf`: scans `arr` in order for an element equal to `item`. */
  method OneOf(item: string, arr: seq<string>) returns (found: bool)
    ensures found <==> item in arr
  {
    var i := 0;
    while i < |arr|
      invariant 0 <= i <= |arr|
      invariant item !in arr[..i]
    {
      if item == arr[i] {
        return true;
      }
      i := i + 1;
    }
    assert arr[..i] == arr;
    return false;
  }

  // ------------------------------------------------------------ SnakeCase

  /** Whether `SnakeCase` puts an underscore before the character at `i`:
      it is upper case, not the first, and follows neither a space nor
      another upper-case character. */
  predicate Inserts(input: string, i: nat)
    requires i < |input|
  {
    IsUpper(input[i]) && i > 0 && input[i - 1] != ' ' && !IsUpper(input[i - 1])
  }

  /** What `SnakeCase` appends for the character at `i`. */
  function Piece(input: string, i: nat): string
    requires i < |input|
  {
    if IsUpper(input[i]) then (if Inserts(input, i) then "_" else "") + [ToLower(input[i])]
    else [input[i]]
  }

  /** The output after the first `n` characters. */
  function SnakePrefix(input: string, n: nat): string
    requires n <= |input|
  {
    if n == 0 then "" else SnakePrefix(input, n - 1) + Piece(input, n - 1)
  }

  function SnakeCaseOf(input: string): string
  {
    SnakePrefix(input, |input|)
  }

  /** The number of underscores inserted among the first `n` characters. */
  function Inserted(input: string, n: nat): nat
    requires n <= |input|
  {
    if n == 0 then 0 else Inserted(input, n - 1) + (if Inserts(input, n - 1) then 1 else 0)
  }

  predicate NoUpper(s: string)
  {
    forall i :: 0 <= i < |s| ==> !IsUpper(s[i])
  }

  /** `SnakeCase`: appends each character's piece to `output` in turn. */
  method SnakeCase(input: string) returns (output: string)
    ensures output == SnakeCaseOf(input)
  {
    output := "";
    var i := 0;
    while i < |input|
      invariant 0 <= i <= |input|
      invariant output == SnakePrefix(input, i)
    {
      var ch := input[i];
      if IsUpper(ch) {
        if i > 0 && input[i - 1] != ' ' && !IsUpper(input[i - 1]) {
          output := output + "_";
        }
        output := output + [ToLower(ch)];
      } else {
        output := output + [ch];
      }
      i := i + 1;
    }
  }

  /** The output has no upper-case letter and is as long as the input plus
      the inserted underscores. */
  lemma {:induction false} SnakePrefixShape(input: string, n: nat)
    requires n <= |input|
    ensures NoUpper(SnakePrefix(input, n))
    ensures |SnakePrefix(input, n)| == n + Inserted(input, n)
  {
    if n > 0 {
      SnakePrefixShape(input, n - 1);
    }
  }

  /** Input without upper-case letters comes out unchanged. */
  lemma {:induction false} SnakePrefixNoUpper(input: string, n: nat)
    requires n <= |input| && NoUpper(input)
    ensures SnakePrefix(input, n) == input[..n]
  {
    if n > 0 {
      SnakePrefixNoUpper(input, n - 1);
      assert input[..n] == input[..n - 1] + [input[n - 1]];
    }
  }

  /** `SnakeCase` is idempotent. */
  lemma {:induction false} SnakeCaseIdempotent(input: string)
    ensures NoUpper(SnakeCaseOf(input))
    ensures |SnakeCaseOf(input)| == |input| + Inserted(input, |input|)
    ensures SnakeCaseOf(SnakeCaseOf(input)) == SnakeCaseOf(input)
  {
    var out := SnakeCaseOf(input);
    SnakePrefixShape(input, |input|);
    SnakePrefixNoUpper(out, |out|);
    assert out[..|out|] == out;
  }

  /** The test table of the upstream repository, one case per lemma. */
  lemma {:induction false} SnakeCaseAllCaps()
    ensures SnakeCaseOf("ABCD") == "abcd"
  {
    var s := "ABCD";
    assert SnakePrefix(s, 1) == "a";
    assert SnakePrefix(s, 2) == "ab";
    assert SnakePrefix(s, 3) == "abc";
    assert SnakePrefix(s, 4) == "abcd";
  }

  lemma {:induction false} SnakeCaseTrailingCap()
    ensures SnakeCaseOf("AbcD") == "abc_d"
  {
    var s := "AbcD";
    assert SnakePrefix(s, 1) == "a";
    assert SnakePrefix(s, 2) == "ab";
    assert SnakePrefix(s, 3) == "abc";
    assert SnakePrefix(s, 4) == "abc_d";
  }

  lemma {:induction false} SnakeCaseCamel()
    ensures SnakeCaseOf("helloWorld") == "hello_world"
  {
    var s := "helloWorld";
    assert SnakePrefix(s, 1) == "h";
    assert SnakePrefix(s, 2) == "he";
    assert SnakePrefix(s, 3) == "hel";
    assert SnakePrefix(s, 4) == "hell";
    assert SnakePrefix(s, 5) == "hello";
    assert SnakePrefix(s, 6) == "hello_w";
    assert SnakePrefix(s, 7) == "hello_wo";
    assert SnakePrefix(s, 8) == "hello_wor";
    assert SnakePrefix(s, 9) == "hello_worl";
    assert SnakePrefix(s, 10) == "hello_world";
  }

  lemma {:induction false} SnakeCaseAcronym()
    ensures SnakeCaseOf("UseHTTPS") == "use_https"
  {
    var s := "UseHTTPS";
    assert SnakePrefix(s, 1) == "u";
    assert SnakePrefix(s, 2) == "us";
    assert SnakePrefix(s, 3) == "use";
    assert SnakePrefix(s, 4) == "use_h";
    assert SnakePrefix(s, 5) == "use_ht";
    assert SnakePrefix(s, 6) == "use_htt";
    assert SnakePrefix(s, 7) == "use_http";
    assert SnakePrefix(s, 8) == "use_https";
  }

  // --------------------------------------------------------------- RandStr

  const CharsetNums: string := "0123456789"
  const CharsetLower: string := "abcdefghijklmnopqrstuvwxyz"
  const CharsetUpper: string := "ABCDEFGHIJKLMNOPQRSTUVWXYZ"

  function Concat(charsets: seq<string>): string
  {
    if charsets == [] then "" else Concat(charsets[..|charsets| - 1]) + charsets[|charsets| - 1]
  }

  /** The effective character set: the given ones joined in order, or the
      62 letters and digits when none is given. */
  function Charset(charsets: seq<string>): string
  {
    if |charsets| >= 1 then Concat(charsets) else CharsetLower + CharsetUpper + CharsetNums
  }

  /** `draws` stands for the successive results of `rand.Intn(len(chars))`. */
  predicate ValidDraws(n: nat, chars: string, draws: seq<int>)
  {
    |draws| == n && forall i :: 0 <= i < n ==> 0 <= draws[i] < |chars|
  }

  /** The string `RandStr` builds from those draws. */
  function RandStrOf(n: nat, charsets: seq<string>, draws: seq<int>): (s: string)
    requires ValidDraws(n, Charset(charsets), draws)
    ensures |s| == n
    ensures forall i :: 0 <= i < n ==> s[i] in Charset(charsets)
  {
    seq(n, i requires 0 <= i < n => Charset(charsets)[draws[i]])
  }

  /** `RandStr`: joins the character sets in a loop, then fills a buffer of
      `n` characters index by index. */
  method RandStr(n: nat, charsets: seq<string>, draws: seq<int>) returns (s: string)
    requires ValidDraws(n, Charset(charsets), draws)
    ensures s == RandStrOf(n, charsets, draws)
  {
    var chars := CharsetLower + CharsetUpper + CharsetNums;
    if |charsets| >= 1 {
      chars := "";
      var j := 0;
      while j < |charsets|
        invariant 0 <= j <= |charsets|
        invariant chars == Concat(charsets[..j])
      {
        assert charsets[..j + 1][..j] == charsets[..j];
        chars := chars + charsets[j];
        j := j + 1;
      }
      assert charsets[..j] == charsets;
    }
    var buf := new char[n];
    var i := 0;
    while i < n
      invariant 0 <= i <= n
      invariant forall k :: 0 <= k < i ==> buf[k] == chars[draws[k]]
    {
      buf[i] := chars[draws[i]];
      i := i + 1;
    }
    s := buf[..];
  }

  predicate AllAlnum(s: string)
  {
    forall i :: 0 <= i < |s| ==> IsAlnum(s[i])
  }

  /** The default character set holds letters and digits only. */
  lemma {:induction false} DefaultCharsetIsAlnum()
    ensures AllAlnum(Charset([]))
  {
    assert AllAlnum(CharsetLower);
    assert AllAlnum(CharsetUpper);
    assert AllAlnum(CharsetNums);
    var cs := Charset([]);
    assert cs == CharsetLower + CharsetUpper + CharsetNums;
    forall i | 0 <= i < |cs|
      ensures IsAlnum(cs[i])
    {
      if i < 26 {
        assert cs[i] == CharsetLower[i];
      } else if i < 52 {
        assert cs[i] == CharsetUpper[i - 26];
      } else {
        assert cs[i] == CharsetNums[i - 52];
      }
    }
  }

  /** With no character set, every character is a letter or a digit. */
  lemma {:induction false} DefaultCharsetAlnum(n: nat, draws: seq<int>)
    requires ValidDraws(n, Charset([]), draws)
    ensures AllAlnum(RandStrOf(n, [], draws))
  {
    DefaultCharsetIsAlnum();
    var s := RandStrOf(n, [], draws);
    forall i | 0 <= i < n
      ensures IsAlnum(s[i])
    {
      assert s[i] == Charset([])[draws[i]];
    }
  }

  /** With the digits as the only character set, every character is a digit. */
  lemma {:induction false} DigitsCharset(n: nat, draws: seq<int>)
    requires ValidDraws(n, Charset([CharsetNums]), draws)
    ensures forall i :: 0 <= i < n ==> IsDigit(RandStrOf(n, [CharsetNums], draws)[i])
  {
    assert [CharsetNums][..0] == [];
    assert Concat([CharsetNums][..0]) == "";
    assert Charset([CharsetNums]) == CharsetNums;
  }

  /** Whatever the draws, the one-letter character set "a" gives a run of "a". */
  lemma {:induction false} SingleCharset(draws: seq<int>)
    requires ValidDraws(10, Charset(["a"]), draws)
    ensures RandStrOf(10, ["a"], draws) == "aaaaaaaaaa"
  {
    assert ["a"][..0] == [];
    assert Concat(["a"][..0]) == "";
    assert Charset(["a"]) == "a";
  }
}
