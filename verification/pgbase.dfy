/** builtin/pgbase: the token claims and their check (claims.go), the
    configuration sanitiser (config.go), and issuing and verifying session
    tokens (pgbase.go). The sessions are core/session.go's records. */
module PgBase {
  import opened Base
  import opened Errors
  import opened Sentinels
  import Identity
  import opened Jwt
  import StrUtils

  /** `tokenClaims`: "sub", "iat", "exp", "sid". */
  datatype TokenClaims = TokenClaims(subject: string, issuedAt: int, expiresAt: int, sessionID: string)

  function BadClaims(hint: string): Err
  {
    Forge(CorePkg, Hintf(Coded(Sentinel(CorePkg, InvalidInput), "invalid_claims", []), hint))
  }

  /** `tokenClaims.Valid`: the time order, then the subject. */
  function ClaimsValid(tc: TokenClaims): (r: Option<Err>)
    ensures r.None? <==> tc.issuedAt < tc.expiresAt && tc.subject != ""
    ensures tc.issuedAt >= tc.expiresAt ==> r == Some(BadClaims("iat > exp"))
    ensures tc.issuedAt < tc.expiresAt && tc.subject == "" ==> r == Some(BadClaims("empty sub"))
  {
    if tc.issuedAt >= tc.expiresAt then Some(BadClaims("iat > exp"))
    else if tc.subject == "" then Some(BadClaims("empty sub"))
    else None
  }

  /** The check looks at neither the session id nor the clock. */
  lemma {:induction false} ClaimsValidIgnoresSidAndClock(tc: TokenClaims, otherSid: string, now: Time)
    requires tc.subject != "" && tc.issuedAt < tc.expiresAt && FromUnix(tc.expiresAt) < now
    ensures ClaimsValid(tc).None?
    ensures ClaimsValid(tc.(sessionID := otherSid)) == ClaimsValid(tc)
  {
  }

  // -------------------------------------------------------------- config

  const MinSecretLen: nat := 16

  /** `pgbase.Config`. */
  class Config {
    var pgSpec: string
    var tokenTTL: Duration
    var jwtSecret: string

    constructor (pgSpec: string, tokenTTL: Duration, jwtSecret: string)
      ensures this.pgSpec == pgSpec && this.tokenTTL == tokenTTL && this.jwtSecret == jwtSecret
    {
      this.pgSpec := pgSpec;
      this.tokenTTL := tokenTTL;
      this.jwtSecret := jwtSecret;
    }

    /** What a successful `sanitise` guarantees. */
    predicate Sane()
      reads this
    {
      pgSpec != "" && Utf8Len(jwtSecret) >= MinSecretLen && tokenTTL > 0
    }

    /** `Config.sanitise`: trims the connection spec in place, requires it
        and a secret of at least 16 bytes, then defaults the lifetime to
        one hour. */
    method Sanitise() returns (err: Option<Err>)
      modifies this
      ensures pgSpec == TrimSpace(old(pgSpec)) && jwtSecret == old(jwtSecret)
      ensures pgSpec == "" ==> err == Some(SHint(CorePkg, InvalidInput, "pg_spec must be set")) && tokenTTL == old(tokenTTL)
      ensures pgSpec != "" && Utf8Len(jwtSecret) < MinSecretLen ==>
                err == Some(SHint(CorePkg, InvalidInput, "jwt_secret must be at-least 16 char")) && tokenTTL == old(tokenTTL)
      ensures pgSpec != "" && Utf8Len(jwtSecret) >= MinSecretLen ==>
                err.None? && tokenTTL == (if old(tokenTTL) <= 0 then Hour else old(tokenTTL))
      ensures err.None? <==> Sane()
    {
      var spec := TrimSpace(pgSpec);
      var secretLen := Utf8Len(jwtSecret);
      pgSpec := spec;
      if pgSpec == "" {
        assert !Sane();
        return Some(SHint(CorePkg, InvalidInput, "pg_spec must be set"));
      }
      if secretLen < MinSecretLen {
        assert !Sane();
        return Some(SHint(CorePkg, InvalidInput, "jwt_secret must be at-least 16 char"));
      }
      if tokenTTL <= 0 {
        tokenTTL := Hour;
      }
      assert Sane();
      err := None;
    }
  }

  // -------------------------------------------------------------- tokens

  /** The claims `IssueToken` signs. */
  function IssuedClaims(u: Identity.User, now: Time, ttl: Duration, sid: string): TokenClaims
  {
    TokenClaims(u.id, Unix(now), Unix(now + ttl), sid)
  }

  /** `IssueToken` at `now` with an 8-character session id from `draws`:
      the session and the HS512 token. */
  function IssueToken(u: Identity.User, now: Time, ttl: Duration, secret: string, draws: seq<int>,
                      codec: JwtCodec<TokenClaims>): (r: Result<(Identity.Session, string)>)
    requires StrUtils.ValidDraws(8, StrUtils.Charset([]), draws)
    ensures var sid := StrUtils.RandStrOf(8, [], draws);
            var signed := codec.sign("HS512", IssuedClaims(u, now, ttl, sid), secret);
            (signed.Fail? ==> r == Fail(SCause(CorePkg, InternalIssue, signed.err)))
            && (signed.Ok? ==> r == Ok((Identity.Session(sid, u.id, now, now + ttl), signed.value)))
    ensures r.Ok? ==> |r.value.0.id| == 8 && r.value.0.userID == u.id && r.value.0.createdAt == now
                      && r.value.0.expiresAt == now + ttl
  {
    var sid := StrUtils.RandStrOf(8, [], draws);
    match codec.sign("HS512", IssuedClaims(u, now, ttl, sid), secret)
    case Fail(e) => Fail(SCause(CorePkg, InternalIssue, e))
    case Ok(t) => Ok((Identity.Session(sid, u.id, now, now + ttl), t))
  }

  /** `VerifyToken`: trims, refuses an empty token, parses with the
      HMAC-only key function and the claims check, and rebuilds the
      session from the claims. */
  function VerifyToken(token: string, secret: string, codec: JwtCodec<TokenClaims>): (r: Result<Identity.Session>)
    ensures TrimSpace(token) == "" ==> r == Fail(Forge(CorePkg, Hintf(ErrToken(CorePkg), "empty token")))
    ensures r.Ok? <==> TrimSpace(token) != "" && ParseHmac(CorePkg, TrimSpace(token), secret, codec, ClaimsValid).Ok?
    ensures r.Ok? ==> var c := ParseHmac(CorePkg, TrimSpace(token), secret, codec, ClaimsValid).value;
                      r.value == Identity.Session(c.sessionID, c.subject, FromUnix(c.issuedAt), FromUnix(c.expiresAt))
    ensures r.Fail? ==> r.err.Forge? && r.err.pkg == CorePkg && r.err.e.code == "invalid_token" && r.err.e.status == 401
  {
    var t := TrimSpace(token);
    if t == "" then Fail(Forge(CorePkg, Hintf(ErrToken(CorePkg), "empty token")))
    else match ParseHmac(CorePkg, t, secret, codec, ClaimsValid)
      case Fail(e) => Fail(Forge(CorePkg, Hintf(CausedBy(ErrToken(CorePkg), Some(e)), "parse failed")))
      case Ok(c) => Ok(Identity.Session(c.sessionID, c.subject, FromUnix(c.issuedAt), FromUnix(c.expiresAt)))
  }

  /** Round trip: verifying an issued token gives back the session id and
      the user, with both times cut to whole seconds, when the user has an
      id and the lifetime is at least a second; the session then passes
      `Session.validate` exactly when its id is not empty. */
  lemma {:induction false} IssueVerifyRoundTrip(u: Identity.User, now: Time, ttl: Duration, secret: string, draws: seq<int>,
                             codec: JwtCodec<TokenClaims>)
    requires JwtSound(codec)
    requires StrUtils.ValidDraws(8, StrUtils.Charset([]), draws)
    requires IssueToken(u, now, ttl, secret, draws, codec).Ok?
    requires u.id != "" && ttl >= Second
    ensures var (s, t) := IssueToken(u, now, ttl, secret, draws, codec).value;
            VerifyToken(t, secret, codec) == Ok(Identity.Session(s.id, u.id, FromUnix(Unix(now)), FromUnix(Unix(now + ttl))))
    ensures Identity.ValidateSession(VerifyToken(IssueToken(u, now, ttl, secret, draws, codec).value.1, secret, codec).value).None?
  {
    var (s, t) := IssueToken(u, now, ttl, secret, draws, codec).value;
    var c := IssuedClaims(u, now, ttl, s.id);
    UnixAdvances(now, ttl);
    assert ClaimsValid(c).None?;
    SignThenParse(CorePkg, c, secret, codec, ClaimsValid);
  }
}
