/** auth/session.go and auth/auth_session.go: the session token claims and
    their check, issuing a session, restoring it from a token, and the
    request gate built on that.

    The claims check takes no clock: nothing here compares `exp` with the
    current time, so an expired but well-signed token is restored. */
module AuthSession {
  import opened Base
  import opened Errors
  import opened Sentinels
  import Identity
  import opened Jwt
  import opened Http
  import opened AuthUtils
  import StrUtils

  /** `sessionClaims`: "tid", "kind", "sub", "iat", "exp". */
  datatype SessionClaims = SessionClaims(id: string, kind: string, subject: string, issuedAt: int, expiresAt: int)

  /** `auth.Session`. */
  datatype Session = Session(id: string, token: string, userID: string, userKind: string, expiresAt: Time, requestID: string)

  function InvalidClaims(hint: string): Err
  {
    Forge(CorePkg, Hintf(Coded(Sentinel(CorePkg, InvalidInput), "invalid_claims", []), hint))
  }

  /** `sessionClaims.Valid`: the kind, then the time order, then the subject. */
  function ClaimsValid(sc: SessionClaims): (r: Option<Err>)
    ensures r.None? <==> sc.kind != "" && sc.issuedAt < sc.expiresAt && sc.subject != ""
    ensures sc.kind == "" ==> r == Some(InvalidClaims("empty kind claim"))
    ensures sc.kind != "" && sc.issuedAt >= sc.expiresAt ==> r == Some(InvalidClaims("iat > exp"))
    ensures sc.kind != "" && sc.issuedAt < sc.expiresAt && sc.subject == "" ==> r == Some(InvalidClaims("empty sub claim"))
  {
    if sc.kind == "" then Some(InvalidClaims("empty kind claim"))
    else if sc.issuedAt >= sc.expiresAt then Some(InvalidClaims("iat > exp"))
    else if sc.subject == "" then Some(InvalidClaims("empty sub claim"))
    else None
  }

  /** The check ignores the session id and has no notion of "now": claims
      that expired long ago pass as long as their own fields are in order. */
  lemma {:induction false} ClaimsValidIgnoresIdAndClock(sc: SessionClaims, otherID: string, now: Time)
    requires sc.kind != "" && sc.subject != "" && sc.issuedAt < sc.expiresAt
    requires FromUnix(sc.expiresAt) < now
    ensures ClaimsValid(sc).None?
    ensures ClaimsValid(sc.(id := otherID)) == ClaimsValid(sc)
  {
  }

  // ------------------------------------------------------------- issuing

  /** The claims `CreateSession` signs. */
  function IssuedClaims(u: Identity.User, now: Time, ttl: Duration, sid: string): SessionClaims
  {
    SessionClaims(sid, u.kind, u.id, Unix(now), Unix(now + ttl))
  }

  /** `CreateSession` at `now` with an 8-character session id drawn from
      `draws`, signed with HS512 under `secret`. */
  function CreateSession(u: Identity.User, now: Time, ttl: Duration, secret: string, draws: seq<int>,
                         codec: JwtCodec<SessionClaims>): (r: Result<Session>)
    requires StrUtils.ValidDraws(8, StrUtils.Charset([]), draws)
    ensures var sid := StrUtils.RandStrOf(8, [], draws);
            var signed := codec.sign("HS512", IssuedClaims(u, now, ttl, sid), secret);
            (signed.Fail? ==> r == Fail(SCause(PkgPkg, InternalIssue, signed.err)))
            && (signed.Ok? ==> r == Ok(Session(sid, signed.value, u.id, u.kind, now + ttl, "")))
    ensures r.Ok? ==> |r.value.id| == 8 && r.value.userID == u.id && r.value.userKind == u.kind
                      && r.value.expiresAt == now + ttl
  {
    var sid := StrUtils.RandStrOf(8, [], draws);
    match codec.sign("HS512", IssuedClaims(u, now, ttl, sid), secret)
    case Fail(e) => Fail(SCause(PkgPkg, InternalIssue, e))
    case Ok(t) => Ok(Session(sid, t, u.id, u.kind, now + ttl, ""))
  }

  // ----------------------------------------------------------- restoring

  /** `RestoreSession`: trims the token, refuses an empty one, parses it
      with the HMAC-only key function and the claims check, and rebuilds
      the session from the claims. */
  function RestoreSession(token: string, secret: string, codec: JwtCodec<SessionClaims>): (r: Result<Session>)
    ensures TrimSpace(token) == "" ==> r == Fail(Forge(PkgPkg, Hintf(ErrToken(PkgPkg), "empty token")))
    ensures r.Ok? <==> TrimSpace(token) != "" && ParseHmac(PkgPkg, TrimSpace(token), secret, codec, ClaimsValid).Ok?
    ensures r.Ok? ==> var c := ParseHmac(PkgPkg, TrimSpace(token), secret, codec, ClaimsValid).value;
                      r.value == Session(c.id, TrimSpace(token), c.subject, c.kind, FromUnix(c.expiresAt), "")
    ensures r.Fail? ==> r.err.Forge? && r.err.pkg == PkgPkg && r.err.e.code == "invalid_token" && r.err.e.status == 401
  {
    var t := TrimSpace(token);
    if t == "" then Fail(Forge(PkgPkg, Hintf(ErrToken(PkgPkg), "empty token")))
    else match ParseHmac(PkgPkg, t, secret, codec, ClaimsValid)
      case Fail(e) => Fail(Forge(PkgPkg, Hintf(CausedBy(ErrToken(PkgPkg), Some(e)), "parse failed")))
      case Ok(c) => Ok(Session(c.id, t, c.subject, c.kind, FromUnix(c.expiresAt), ""))
  }

  /** A failed restore is never an internal issue, and, being re-coded, it
      does not match the `MissingAuth` sentinel itself either. */
  lemma {:induction false} RestoreFailureKind(token: string, secret: string, codec: JwtCodec<SessionClaims>)
    requires RestoreSession(token, secret, codec).Fail?
    ensures !Is(RestoreSession(token, secret, codec).err, S(PkgPkg, InternalIssue))
    ensures !Is(RestoreSession(token, secret, codec).err, S(PkgPkg, MissingAuth))
  {
  }

  /** Round trip: restoring the token of a freshly created session gives
      back its id, user and kind, with the expiry cut to whole seconds,
      when the user has an id and a kind and the lifetime is at least a
      second. */
  lemma {:induction false} SessionRoundTrip(u: Identity.User, now: Time, ttl: Duration, secret: string, draws: seq<int>,
                         codec: JwtCodec<SessionClaims>)
    requires JwtSound(codec)
    requires StrUtils.ValidDraws(8, StrUtils.Charset([]), draws)
    requires CreateSession(u, now, ttl, secret, draws, codec).Ok?
    requires u.id != "" && u.kind != "" && ttl >= Second
    ensures var s := CreateSession(u, now, ttl, secret, draws, codec).value;
            RestoreSession(s.token, secret, codec) == Ok(Session(s.id, s.token, u.id, u.kind, FromUnix(Unix(now + ttl)), ""))
  {
    var s := CreateSession(u, now, ttl, secret, draws, codec).value;
    var c := IssuedClaims(u, now, ttl, s.id);
    UnixAdvances(now, ttl);
    assert ClaimsValid(c).None?;
    SignThenParse(PkgPkg, c, secret, codec, ClaimsValid);
  }

  // ---------------------------------------------------------------- gate

  /** What the `Authenticate` middleware does with a request: call the
      next handler with the session in the context (`None` is a nil
      session), or return the error without calling it. */
  datatype Gate = Proceed(session: Option<Session>) | Reject(err: Err)

  /** `Authenticate`: no token means an anonymous request; a token that
      does not restore stops the request with the restore error. */
  function Authenticate(r: Request, cookieName: string, secret: string, codec: JwtCodec<SessionClaims>): (g: Gate)
    ensures ExtractToken(r, cookieName) == "" ==> g == Proceed(None)
    ensures ExtractToken(r, cookieName) != "" ==>
              match RestoreSession(ExtractToken(r, cookieName), secret, codec)
              case Fail(e) => g == Reject(e)
              case Ok(s) => g == Proceed(Some(s))
  {
    var token := ExtractToken(r, cookieName);
    if token == "" then Proceed(None)
    else match RestoreSession(token, secret, codec)
      case Fail(e) => Reject(e)
      case Ok(s) => Proceed(Some(s))
  }

  /** A request carrying a freshly created session's token as a bearer
      header passes the gate with that user's session. */
  lemma {:induction false} AuthenticateRoundTrip(r: Request, cookieName: string, u: Identity.User, now: Time, ttl: Duration, secret: string,
                              draws: seq<int>, codec: JwtCodec<SessionClaims>)
    requires JwtSound(codec)
    requires StrUtils.ValidDraws(8, StrUtils.Charset([]), draws)
    requires CreateSession(u, now, ttl, secret, draws, codec).Ok?
    requires u.id != "" && u.kind != "" && ttl >= Second
    requires HeaderGet(r, HeaderAuthz) == BearerPrefix + CreateSession(u, now, ttl, secret, draws, codec).value.token
    ensures Authenticate(r, cookieName, secret, codec).Proceed?
    ensures Authenticate(r, cookieName, secret, codec).session.Some?
    ensures Authenticate(r, cookieName, secret, codec).session.value.userID == u.id
    ensures Authenticate(r, cookieName, secret, codec).session.value.userKind == u.kind
  {
    var s := CreateSession(u, now, ttl, secret, draws, codec).value;
    var c := IssuedClaims(u, now, ttl, s.id);
    assert codec.sign("HS512", c, secret) == Ok(s.token);
    BearerRoundTrip(s.token, r, cookieName);
    SessionRoundTrip(u, now, ttl, secret, draws, codec);
  }
}
