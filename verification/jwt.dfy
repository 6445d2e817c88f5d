/** The part of golang-jwt v4 the session code relies on: `SignedString`
    and `ParseWithClaims` with the HMAC-only key function that
    auth/auth_session.go, builtin/pgbase/pgbase.go and
    builtin/jwtauth/jwtauth.go all pass.

    Compact serialisation, base64url, JSON and the HMAC itself are not
    modelled: a `JwtCodec` carries them as functions, and `JwtSound` states
    the round trip assumed of them. */
module Jwt {
  import opened Base
  import opened Errors
  import opened Sentinels

  /** The signing algorithms the library registers ("none" included). */
  const KnownAlgs: seq<string> := ["HS256", "HS384", "HS512", "RS256", "RS384", "RS512", "ES256", "ES384", "ES512",
                                   "PS256", "PS384", "PS512", "EdDSA", "none"]

  /** The algorithms whose method is a `*jwt.SigningMethodHMAC`. */
  predicate IsHmac(alg: string)
  {
    alg == "HS256" || alg == "HS384" || alg == "HS512"
  }

  /** A decoded token: the header's `alg` and the claims. */
  datatype Jws<C> = Jws(alg: string, claims: C)

  /** `sign(alg, claims, key)` is `SignedString`; `decode` splits and decodes
      a compact token (None when malformed); `verify(token, alg, key)` checks
      its signature. */
  datatype JwtCodec<!C> = JwtCodec(
    sign: (string, C, string) -> Result<string>,
    decode: string -> Option<Jws<C>>,
    verify: (string, string, string) -> bool)

  /** What is assumed of the codec: a signed token is a non-empty string
      without surrounding white space that decodes to what was signed and
      carries a signature valid under the signing key. */
  ghost predicate JwtSound<C(!new)>(codec: JwtCodec<C>)
  {
    forall alg, c, key :: codec.sign(alg, c, key).Ok? ==>
      var t := codec.sign(alg, c, key).value;
      t != "" && TrimSpace(t) == t && codec.decode(t) == Some(Jws(alg, c)) && codec.verify(t, alg, key)
  }

  /** The error text of a failed parse. */
  function ParseError(reason: string): Err
  {
    Foreign(Opaque(reason))
  }

  /** `jwt.ParseWithClaims(token, claims, keyFn)` where `keyFn` accepts only
      HMAC methods (refusing others with `errToken.Hintf("invalid alg=...")`
      of the errors package `p`) and returns `key`. The steps run in the
      library's order: decode, method lookup, key function, the claims'
      own `Valid` (`valid`), then the signature. A failed signature check
      overwrites the inner error the claims left, so when both fail the
      text is the signature's. */
  function ParseHmac<C>(p: Pkg, token: string, key: string, codec: JwtCodec<C>, valid: C -> Option<Err>): (r: Result<C>)
    ensures r.Ok? <==> codec.decode(token).Some?
                       && IsHmac(codec.decode(token).value.alg)
                       && valid(codec.decode(token).value.claims).None?
                       && codec.verify(token, codec.decode(token).value.alg, key)
    ensures r.Ok? ==> r.value == codec.decode(token).value.claims
    ensures (codec.decode(token).Some? && IsHmac(codec.decode(token).value.alg)
             && !codec.verify(token, codec.decode(token).value.alg, key))
            ==> r == Fail(ParseError("signature is invalid"))
    ensures (codec.decode(token).Some? && IsHmac(codec.decode(token).value.alg)
             && codec.verify(token, codec.decode(token).value.alg, key) && valid(codec.decode(token).value.claims).Some?)
            ==> r == Fail(ParseError(Text(valid(codec.decode(token).value.claims).value)))
  {
    match codec.decode(token)
    case None => Fail(ParseError("token is malformed"))
    case Some(jws) =>
      if jws.alg !in KnownAlgs then Fail(ParseError("signing method (alg) is unavailable."))
      else if !IsHmac(jws.alg) then
        Fail(Forge(p, Hintf(Coded(Sentinel(p, MissingAuth), "invalid_token", []), "invalid alg=" + jws.alg)))
      else if !codec.verify(token, jws.alg, key) then Fail(ParseError("signature is invalid"))
      else if valid(jws.claims).Some? then Fail(ParseError(Text(valid(jws.claims).value)))
      else Ok(jws.claims)
  }

  /** Round trip: a token signed with HS512 and a key parses back to its
      claims under the same key, provided the claims are valid. */
  lemma {:induction false} SignThenParse<C(!new)>(p: Pkg, c: C, key: string, codec: JwtCodec<C>, valid: C -> Option<Err>)
    requires JwtSound(codec)
    requires codec.sign("HS512", c, key).Ok?
    requires valid(c).None?
    ensures ParseHmac(p, codec.sign("HS512", c, key).value, key, codec, valid) == Ok(c)
  {
    var t := codec.sign("HS512", c, key).value;
    assert codec.decode(t) == Some(Jws("HS512", c));
  }

  /** A token whose algorithm is not HMAC (RS256, "none", ...) never parses,
      whatever its claims and signature. */
  lemma {:induction false} NonHmacRejected<C>(p: Pkg, token: string, key: string, codec: JwtCodec<C>, valid: C -> Option<Err>)
    requires codec.decode(token).Some? && !IsHmac(codec.decode(token).value.alg)
    ensures ParseHmac(p, token, key, codec, valid).Fail?
  {
  }
}
