/** builtin/jwtauth/jwtauth.go: a stateless session issuer. Its claims
    type is not part of this model beyond the fields the code reads and
    writes ("sub", "iat", "exp", "sid"); its own `Valid` is a parameter. */
module JwtAuth {
  import opened Base
  import opened Errors
  import opened Sentinels
  import Identity
  import opened Jwt
  import StrUtils

  datatype TokenClaims = TokenClaims(subject: string, issuedAt: int, expiresAt: int, sessionID: string)

  /** `JWTAuth`. */
  datatype JWTAuth = JWTAuth(jwtTTL: Duration, jwtSecret: string)

  /** `New`: a non-positive lifetime becomes one hour; the secret must not
      be empty, of any length otherwise. */
  function New(ttl: Duration, secret: string): (r: Result<JWTAuth>)
    ensures r.Ok? <==> secret != ""
    ensures secret == "" ==> r == Fail(SHint(CorePkg, InvalidInput, "jwt secret must be set"))
    ensures r.Ok? ==> r.value.jwtSecret == secret && r.value.jwtTTL > 0
                      && r.value.jwtTTL == (if ttl <= 0 then Hour else ttl)
  {
    var t := if ttl <= 0 then Hour else ttl;
    if secret == "" then Fail(SHint(CorePkg, InvalidInput, "jwt secret must be set"))
    else Ok(JWTAuth(t, secret))
  }

  function IssuedClaims(u: Identity.User, now: Time, ttl: Duration, sid: string): TokenClaims
  {
    TokenClaims(u.id, Unix(now), Unix(now + ttl), sid)
  }

  /** `CreateSession` at `now` with an 8-character session id from `draws`. */
  function CreateSession(a: JWTAuth, u: Identity.User, now: Time, draws: seq<int>,
                         codec: JwtCodec<TokenClaims>): (r: Result<(Identity.Session, string)>)
    requires StrUtils.ValidDraws(8, StrUtils.Charset([]), draws)
    ensures var sid := StrUtils.RandStrOf(8, [], draws);
            var signed := codec.sign("HS512", IssuedClaims(u, now, a.jwtTTL, sid), a.jwtSecret);
            (signed.Fail? ==> r == Fail(SCause(CorePkg, InternalIssue, signed.err)))
            && (signed.Ok? ==> r == Ok((Identity.Session(sid, u.id, now, now + a.jwtTTL), signed.value)))
  {
    var sid := StrUtils.RandStrOf(8, [], draws);
    match codec.sign("HS512", IssuedClaims(u, now, a.jwtTTL, sid), a.jwtSecret)
    case Fail(e) => Fail(SCause(CorePkg, InternalIssue, e))
    case Ok(t) => Ok((Identity.Session(sid, u.id, now, now + a.jwtTTL), t))
  }

  /** `RestoreSession`: trims, refuses an empty token, parses with the
      HMAC-only key function and the claims' `valid`. */
  function RestoreSession(a: JWTAuth, token: string, codec: JwtCodec<TokenClaims>,
                          valid: TokenClaims -> Option<Err>): (r: Result<Identity.Session>)
    ensures TrimSpace(token) == "" ==> r == Fail(Forge(CorePkg, Hintf(ErrToken(CorePkg), "empty token")))
    ensures r.Ok? <==> TrimSpace(token) != "" && ParseHmac(CorePkg, TrimSpace(token), a.jwtSecret, codec, valid).Ok?
    ensures r.Ok? ==> var c := ParseHmac(CorePkg, TrimSpace(token), a.jwtSecret, codec, valid).value;
                      r.value == Identity.Session(c.sessionID, c.subject, FromUnix(c.issuedAt), FromUnix(c.expiresAt))
    ensures r.Fail? ==> r.err.Forge? && r.err.pkg == CorePkg && r.err.e.code == "invalid_token" && r.err.e.status == 401
  {
    var t := TrimSpace(token);
    if t == "" then Fail(Forge(CorePkg, Hintf(ErrToken(CorePkg), "empty token")))
    else match ParseHmac(CorePkg, t, a.jwtSecret, codec, valid)
      case Fail(e) => Fail(Forge(CorePkg, Hintf(CausedBy(ErrToken(CorePkg), Some(e)), "parse failed")))
      case Ok(c) => Ok(Identity.Session(c.sessionID, c.subject, FromUnix(c.issuedAt), FromUnix(c.expiresAt)))
  }

  /** Round trip through an issuer made by `New`: restoring a created
      token gives back the session id and user, times cut to whole
      seconds, provided the claims' own check accepts what was issued. */
  lemma {:induction false} CreateRestoreRoundTrip(ttl: Duration, secret: string, u: Identity.User, now: Time, draws: seq<int>,
                               codec: JwtCodec<TokenClaims>, valid: TokenClaims -> Option<Err>)
    requires JwtSound(codec)
    requires New(ttl, secret).Ok?
    requires StrUtils.ValidDraws(8, StrUtils.Charset([]), draws)
    requires CreateSession(New(ttl, secret).value, u, now, draws, codec).Ok?
    requires valid(IssuedClaims(u, now, New(ttl, secret).value.jwtTTL, StrUtils.RandStrOf(8, [], draws))).None?
    ensures var a := New(ttl, secret).value;
            var (s, t) := CreateSession(a, u, now, draws, codec).value;
            RestoreSession(a, t, codec, valid) == Ok(Identity.Session(s.id, u.id, FromUnix(Unix(now)), FromUnix(Unix(now + a.jwtTTL))))
  {
    var a := New(ttl, secret).value;
    var sid := StrUtils.RandStrOf(8, [], draws);
    SignThenParse(CorePkg, IssuedClaims(u, now, a.jwtTTL, sid), a.jwtSecret, codec, valid);
  }
}
