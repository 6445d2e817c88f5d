/** core/strutils/email.go: the Gravatar URL builder. `net/mail` address
    parsing (`IsValidEmail`) and md5 are not modelled: they are passed in as
    `valid` and `md5Hex` (the lower-case hex digest of the trimmed address). */
module Email {
  import opened Base

  /** The facts the upstream tests state about `IsValidEmail`. */
  predicate EmailTestFacts(valid: string -> bool)
  {
    valid("bob@bobmail.com") && valid("bob@bobmail")
    && !valid("bobmail.com") && !valid("") && !valid("foo")
  }

  /** The thumbnail size actually used: anything outside 1..2047 becomes 128. */
  function GravatarSize(size: int): (s: nat)
    ensures 1 <= s <= 2047
    ensures 0 < size < 2048 ==> s == size
    ensures !(0 < size < 2048) ==> s == 128
  {
    if size <= 0 || size >= 2048 then 128 else size
  }

  const GravatarBase: string := "https://www.gravatar.com/avatar"

  /** The size query parameter, after clamping. */
  function SizeQuery(size: int): string
  {
    "?s=" + Decimal(GravatarSize(size))
  }

  /** The URL for an address that is already trimmed. */
  function AvatarFor(e: string, size: int, valid: string -> bool, md5Hex: string -> string): (u: string)
    ensures HasPrefix(u, GravatarBase) && HasSuffix(u, SizeQuery(size))
  {
    var path := if !valid(e) then "" else "/" + md5Hex(e);
    var u := GravatarBase + path + SizeQuery(size);
    assert u[..|GravatarBase|] == GravatarBase;
    assert u[|u| - |SizeQuery(size)|..] == SizeQuery(size);
    u
  }

  /** `GravatarURL`: trims the address; an invalid one gets the generic
      avatar, a valid one the avatar of its md5 digest. */
  function GravatarURL(email: string, size: int, valid: string -> bool, md5Hex: string -> string): (u: string)
    ensures !valid(TrimSpace(email)) ==> u == GravatarBase + SizeQuery(size)
    ensures valid(TrimSpace(email)) ==> u == GravatarBase + "/" + md5Hex(TrimSpace(email)) + SizeQuery(size)
    ensures HasPrefix(u, GravatarBase) && HasSuffix(u, SizeQuery(size))
  {
    AvatarFor(TrimSpace(email), size, valid, md5Hex)
  }

  /** Surrounding white space does not change the URL. */
  lemma {:induction false} GravatarIgnoresSpace(email: string, size: int, valid: string -> bool, md5Hex: string -> string)
    ensures GravatarURL(TrimSpace(email), size, valid, md5Hex) == GravatarURL(email, size, valid, md5Hex)
  {
    TrimSpaceIdempotent(email);
  }

  /** The sizes the upstream tests use, and an out-of-range one. */
  lemma {:induction false} SizeQueries()
    ensures SizeQuery(128) == "?s=128" && SizeQuery(64) == "?s=64" && SizeQuery(0) == "?s=128"
  {
    assert Decimal(12) == "12" by { assert Decimal(1) == "1"; }
    assert Decimal(6) == "6";
  }

  /** The upstream test of `GravatarURL` on "bob@bobmail.com" (an address
      the tests call valid) at sizes 128 and 64; the test also fixes the
      digest, which is md5's business. */
  lemma {:induction false} GravatarExamples(email: string, valid: string -> bool, md5Hex: string -> string)
    requires email == "bob@bobmail.com" && valid(email)
    ensures GravatarURL(email, 128, valid, md5Hex) == GravatarBase + "/" + md5Hex(email) + "?s=128"
    ensures GravatarURL(email, 64, valid, md5Hex) == GravatarBase + "/" + md5Hex(email) + "?s=64"
  {
    TrimSpaceFixpoint(email);
    SizeQueries();
  }

  /** An address the tests call invalid ("foo") gets the generic avatar, at
      the default size when the requested one is out of range. */
  lemma {:induction false} GravatarFallbackExample(email: string, valid: string -> bool, md5Hex: string -> string)
    requires email == "foo" && !valid(email)
    ensures GravatarURL(email, 0, valid, md5Hex) == GravatarBase + "?s=128"
  {
    TrimSpaceFixpoint(email);
    SizeQueries();
  }
}
