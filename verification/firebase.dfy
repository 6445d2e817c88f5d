/** builtins/firebase: verifying a Firebase ID token (an RS256-signed JWT,
    section 3.3 of RFC 7518) with golang-jwt v5, mapping its claims to a
    local user, and the cache of Google's public signing keys, refreshed
    when the max-age of the last response (section 5.2.2.1 of RFC 9111)
    has run out.

    Not modelled: compact serialisation, base64url, JSON, PEM and RSA, and
    the HTTP fetch. An `RsCodec` decodes a token and checks a signature
    under a PEM key; `parsePem` is `jwt.ParseRSAPublicKeyFromPEM`; a
    `Fetched` value is what the key endpoint answers. The clock is the
    parameter `now`. */
module Firebase {
  import opened Base
  import opened Errors
  import opened Sentinels
  import Identity
  import Jwt
  import Gates

  /** `tokClaims`: the registered claims "iss", "sub", "aud", "iat", "exp"
      (in Unix seconds) and the profile claims. */
  datatype TokClaims = TokClaims(
    issuer: string,
    subject: string,
    audience: string,
    issuedAt: int,
    expiresAt: int,
    name: string,
    email: string,
    picture: string,
    emailVerified: bool)

  /** `GetExpirationTime`. */
  function ExpirationTime(c: TokClaims): Time
  {
    FromUnix(c.expiresAt)
  }

  /** `GetNotBefore`: the token's "iat", there being no "nbf" claim. */
  function NotBefore(c: TokClaims): Time
  {
    FromUnix(c.issuedAt)
  }

  /** The default claims validator of golang-jwt v5 over these getters: the
      token must not have expired (now strictly before "exp") and must be
      in force (now not before "iat"). Issuer, subject and audience are
      not looked at by it. */
  function ValidateClaims(c: TokClaims, now: Time): (r: Option<string>)
    ensures r.None? <==> NotBefore(c) <= now < ExpirationTime(c)
    ensures now >= ExpirationTime(c) ==> r.Some? && HasPrefix(r.value, "token is expired")
    ensures now < ExpirationTime(c) && now < NotBefore(c) ==> r == Some("token is not valid yet")
  {
    var expired := !(now < ExpirationTime(c));
    var early := now < NotBefore(c);
    if expired && early then Some("token is expired\ntoken is not valid yet")
    else if expired then Some("token is expired")
    else if early then Some("token is not valid yet")
    else None
  }

  /** A token whose "exp" is not after its "iat" is never valid; whether a
      token is valid at all never depends on who issued it, for whom or to
      whom. */
  lemma {:induction false} ClaimsWindow(c: TokClaims, now: Time, iss: string, sub: string, aud: string)
    ensures c.expiresAt <= c.issuedAt ==> ValidateClaims(c, now).Some?
    ensures ValidateClaims(c.(issuer := iss, subject := sub, audience := aud), now) == ValidateClaims(c, now)
  {
  }

  // --------------------------------------------------------------- issuer

  const IssuerPrefix: string := "https://securetoken.google.com/"

  /** `issuer`: the issuer Firebase puts in the project's tokens. */
  function Issuer(projectID: string): (iss: string)
    ensures HasPrefix(iss, IssuerPrefix) && iss[|IssuerPrefix|..] == projectID
  {
    assert (IssuerPrefix + projectID)[..|IssuerPrefix|] == IssuerPrefix;
    IssuerPrefix + projectID
  }

  /** Different projects have different issuers, so a token of another
      project never passes the issuer check. */
  lemma {:induction false} IssuerInjective(p: string, q: string)
    ensures Issuer(p) == Issuer(q) ==> p == q
  {
    if Issuer(p) == Issuer(q) {
      assert Issuer(p)[|IssuerPrefix|..] == Issuer(q)[|IssuerPrefix|..];
    }
  }

  // ------------------------------------------------------- the key cache

  /** What the key endpoint answers: a transport error, or a response with
      its status, its Cache-Control max-age in seconds as the header parser
      gives it (-1 when the directive is absent; a failure when the header
      does not parse) and the JSON body decoded as a map from key id to
      PEM certificate (`None` for a body that is JSON `null`, which the
      decoder stores as a nil map; or the decoding error). */
  datatype Fetched =
    | Unreachable(err: Err)
    | Response(status: int, statusText: string, maxAge: Result<int>, body: Result<Option<map<string, string>>>)

  /** The state of a `KeySource`. */
  datatype Cache = Cache(keys: map<string, string>, nextSync: Time)

  /** The error `syncIfNeeded` reports for a status other than 200. */
  function UnexpectedStatus(statusText: string): Err
  {
    SCause(CorePkg, InternalIssue, Foreign(Opaque("unexpected status: " + statusText)))
  }

  /** `syncIfNeeded` at `now`: nothing happens until `nextSync` is in the
      past; then a transport error, a status other than 200 or a bad
      Cache-Control header is reported with the cache untouched; otherwise
      the next refresh is set to now plus the max-age, even when the body
      then fails to decode, and the decoded keys are merged over the old
      ones. Only a `null` body drops keys: it empties the cache. */
  function Sync(c: Cache, now: Time, f: Fetched): (r: (Cache, Option<Err>))
    ensures !(c.nextSync < now) ==> r == (c, None)
    ensures c.keys.Keys <= r.0.keys.Keys || (f.Response? && f.body == Ok(None))
    ensures r.1.Some? ==> r.0.keys == c.keys
    ensures r.0.nextSync != c.nextSync ==> c.nextSync < now && f.Response? && f.status == 200 && f.maxAge.Ok?
    ensures c.nextSync < now && f.Unreachable? ==> r == (c, Some(f.err))
    ensures c.nextSync < now && f.Response? && f.status != 200 ==> r == (c, Some(UnexpectedStatus(f.statusText)))
    ensures c.nextSync < now && f.Response? && f.status == 200 && f.maxAge.Fail? ==> r == (c, Some(f.maxAge.err))
    ensures c.nextSync < now && f.Response? && f.status == 200 && f.maxAge.Ok? ==>
              r.0.nextSync == now + f.maxAge.value * Second
              && (f.body.Fail? ==> r == (c.(nextSync := r.0.nextSync), Some(f.body.err)))
              && (f.body.Ok? ==> r.1.None?)
              && (f.body.Ok? && f.body.value.Some? ==> r.0.keys == c.keys + f.body.value.value)
              && (f.body == Ok(None) ==> r.0.keys == map[])
  {
    if !(c.nextSync < now) then (c, None)
    else match f
      case Unreachable(e) => (c, Some(e))
      case Response(status, text, maxAge, body) =>
        if status != 200 then (c, Some(UnexpectedStatus(text)))
        else match maxAge
          case Fail(e) => (c, Some(e))
          case Ok(age) =>
            var next := now + age * Second;
            match body
            case Fail(e) => (c.(nextSync := next), Some(e))
            case Ok(None) => (Cache(map[], next), None)
            case Ok(Some(got)) => (Cache(c.keys + got, next), None)
  }

  /** Within the max-age of a successful refresh the cache is not
      refreshed again, whatever the endpoint would answer. */
  lemma {:induction false} NoRefetchWithinMaxAge(c: Cache, now: Time, f: Fetched, later: Time, g: Fetched)
    requires c.nextSync < now && f.Response? && f.status == 200 && f.maxAge.Ok?
    requires later <= now + f.maxAge.value * Second
    ensures Sync(Sync(c, now, f).0, later, g) == (Sync(c, now, f).0, None)
  {
  }

  /** Without a max-age directive (or with max-age 0) every later call
      refreshes again. */
  lemma {:induction false} MissingMaxAgeRefetches(c: Cache, now: Time, f: Fetched, later: Time)
    requires c.nextSync < now && f.Response? && f.status == 200 && f.maxAge.Ok? && f.maxAge.value <= 0
    requires later > now
    ensures Sync(c, now, f).0.nextSync < later
  {
  }

  /** `Find`, on the state the refresh left: a refresh error is returned;
      an unknown key id is `NotFound`; a known one is parsed. */
  function Lookup(c: Cache, kid: string, now: Time, f: Fetched, parsePem: string -> Result<string>)
    : (r: (Cache, Result<string>))
    ensures r.0 == Sync(c, now, f).0
    ensures Sync(c, now, f).1.Some? ==> r.1 == Fail(Sync(c, now, f).1.value)
    ensures Sync(c, now, f).1.None? && kid !in r.0.keys ==> r.1 == Fail(S(CorePkg, NotFound))
    ensures r.1.Ok? ==> kid in r.0.keys && r.1 == parsePem(r.0.keys[kid])
  {
    var (c1, err) := Sync(c, now, f);
    if err.Some? then (c1, Fail(err.value))
    else if kid !in c1.keys then (c1, Fail(S(CorePkg, NotFound)))
    else (c1, parsePem(c1.keys[kid]))
  }

  /** A refresh that fails makes every lookup fail, even of a key the cache
      holds; a fresh cache answers from what it holds. */
  lemma {:induction false} CacheAvailability(c: Cache, kid: string, now: Time, f: Fetched, parsePem: string -> Result<string>)
    ensures c.nextSync < now && f.Unreachable? ==> Lookup(c, kid, now, f, parsePem) == (c, Fail(f.err))
    ensures !(c.nextSync < now) && kid in c.keys ==> Lookup(c, kid, now, f, parsePem) == (c, parsePem(c.keys[kid]))
  {
  }

  /** `KeySource`, without its lock. */
  class KeySource {
    var keys: map<string, string>
    var nextSync: Time

    /** The zero `KeySource`: no keys, and due for a refresh. */
    constructor ()
      ensures keys == map[] && nextSync == ZeroTime
    {
      keys := map[];
      nextSync := ZeroTime;
    }

    function State(): Cache
      reads this
    {
      Cache(keys, nextSync)
    }

    /** `syncIfNeeded`. */
    method SyncIfNeeded(now: Time, fetched: Fetched) returns (err: Option<Err>)
      modifies this
      ensures (State(), err) == Sync(old(State()), now, fetched)
    {
      if !(nextSync < now) {
        return None;
      }
      match fetched
      case Unreachable(e) =>
        return Some(e);
      case Response(status, text, maxAge, body) =>
        if status != 200 {
          return Some(UnexpectedStatus(text));
        }
        if maxAge.Fail? {
          return Some(maxAge.err);
        }
        nextSync := now + maxAge.value * Second;
        if body.Fail? {
          return Some(body.err);
        }
        if body.value.None? {
          keys := map[];
        } else {
          keys := keys + body.value.value;
        }
        err := None;
    }

    /** `Find`. */
    method Find(kid: string, now: Time, fetched: Fetched, parsePem: string -> Result<string>)
      returns (r: Result<string>)
      modifies this
      ensures (State(), r) == Lookup(old(State()), kid, now, fetched, parsePem)
    {
      var err := SyncIfNeeded(now, fetched);
      if err.Some? {
        return Fail(err.value);
      }
      if kid !in keys {
        return Fail(S(CorePkg, NotFound));
      }
      r := parsePem(keys[kid]);
    }
  }

  // ----------------------------------------------------------- the token

  /** A decoded token: the header's "alg" and "kid" entries (`Nil` when
      absent) and the claims. */
  datatype IdToken = IdToken(alg: Value, kid: Value, claims: TokClaims)

  /** `decode` splits and decodes a compact token (None when malformed);
      `verify(token, key)` checks its signature under a PEM key. */
  datatype RsCodec = RsCodec(decode: string -> Option<IdToken>, verify: (string, string) -> bool)

  /** The library's method lookup, before the key function runs: "alg"
      must be a string naming a registered algorithm. */
  function MethodError(t: IdToken): (r: Option<string>)
    ensures r.None? <==> t.alg.Str? && t.alg.s in Jwt.KnownAlgs
  {
    if !t.alg.Str? then Some("token is unverifiable: signing method (alg) is unspecified")
    else if t.alg.s !in Jwt.KnownAlgs then Some("token is unverifiable: signing method (alg) is unavailable")
    else None
  }

  /** `keyFunc`'s header checks: "alg" must be the string "RS256" and "kid"
      a string, which is the key id to look up. */
  function KeyFunc(t: IdToken): (r: Result<string>)
    ensures r.Ok? <==> t.alg == Str("RS256") && t.kid.Str?
    ensures r.Ok? ==> r.value == t.kid.s
    ensures r.Fail? ==> r.err.Forge? && r.err.pkg == CorePkg && r.err.e.code == "missing_auth" && r.err.e.status == 401
  {
    if t.alg != Str("RS256") then Fail(SCause(CorePkg, MissingAuth, Foreign(Opaque("invalid alg"))))
    else if !t.kid.Str? then Fail(SCause(CorePkg, MissingAuth, Foreign(Opaque("invalid kid"))))
    else Ok(t.kid.s)
  }

  /** The text of a key-function failure, as the library wraps it. */
  function Unverifiable(e: Err): string
  {
    "token is unverifiable: error while executing keyfunc: " + Text(e)
  }

  /** The rest of `ParseWithClaims` once the key lookup has answered: the
      signature under the key, then the claims. `None` is success. */
  function Verified(token: string, t: IdToken, key: Result<string>, now: Time, codec: RsCodec): (r: Option<string>)
    ensures r.None? <==> key.Ok? && codec.verify(token, key.value) && ValidateClaims(t.claims, now).None?
  {
    match key
    case Fail(e) => Some(Unverifiable(e))
    case Ok(k) =>
      if !codec.verify(token, k) then Some("token signature is invalid")
      else match ValidateClaims(t.claims, now)
        case Some(msg) => Some("token has invalid claims: " + msg)
        case None => None
  }

  /** How `Authenticate` refuses a token: `MissingAuth` with the reason as
      its hint. */
  function Refused(reason: string): Err
  {
    SHint(CorePkg, MissingAuth, reason)
  }

  // ---------------------------------------------------------- local user

  /** The user `upsertLocalUser` builds from the claims at `now`. */
  function LocalUser(c: TokClaims, now: Time): (u: Identity.User)
    ensures u.id == c.subject && u.email == c.email && u.username == "user" + c.subject
    ensures u.data == map["name" := Str(c.name), "picture" := Str(c.picture)]
    ensures u.createdAt == now && u.updatedAt == now
    ensures u.verifiedAt == if c.emailVerified then Some(now) else None
    ensures u.kind == "" && u.pwdHash.None? && u.verifyToken.None? && u.attributes == map[]
  {
    Identity.User(c.subject, "", map["name" := Str(c.name), "picture" := Str(c.picture)], c.email, None,
                  "user" + c.subject, now, now, if c.emailVerified then Some(now) else None, None, map[])
  }

  /** The local user passes `Validate` exactly when the subject is an
      alphanumeric id and the e-mail address is valid: "user" followed by
      such an id is always a valid username. */
  lemma {:induction false} LocalUserValidates(c: TokClaims, now: Time, valid: string -> bool)
    ensures Identity.Validate(LocalUser(c, now), valid).None? <==> Identity.IdPattern(c.subject) && valid(c.email)
  {
    var n := LocalUser(c, now).username;
    if Identity.IdPattern(c.subject) {
      assert n[0] == 'u';
      forall i | 1 <= i < |n|
        ensures IsAlnum(n[i])
      {
        if i >= 4 {
          assert n[i] == c.subject[i - 4];
        } else {
          assert n[i] == "user"[i];
        }
      }
      assert Identity.UsernamePattern(n);
    }
  }

  /** `upsertLocalUser`: the registry's answer for the local user, or the
      local user itself when there is no registry. */
  function Upsert(registry: Option<Identity.User -> Result<Identity.User>>, u: Identity.User): (r: Result<Identity.User>)
    ensures registry.None? ==> r == Ok(u)
    ensures registry.Some? ==> r == registry.value(u)
  {
    match registry
    case None => Ok(u)
    case Some(upsert) => upsert(u)
  }

  // ------------------------------------------------------- Authenticate

  /** What `Authenticate` does to the key cache and returns. The steps run
      in the library's order (decoding, method lookup, key function with
      its key lookup, signature, claims), then the issuer check and the
      upsert; the session's expiry is "exp". The cache changes only when
      the key function gets as far as the key lookup. */
  function Authenticated(c: Cache, token: string, now: Time, f: Fetched, codec: RsCodec,
                         parsePem: string -> Result<string>, projectID: string,
                         registry: Option<Identity.User -> Result<Identity.User>>)
    : (r: (Cache, Result<Identity.AppSession>))
    ensures r.0 == c || (codec.decode(token).Some? && KeyFunc(codec.decode(token).value).Ok?
                         && MethodError(codec.decode(token).value).None?
                         && r.0 == Sync(c, now, f).0)
  {
    match codec.decode(token)
    case None => (c, Fail(Refused("token is malformed")))
    case Some(t) =>
      if MethodError(t).Some? then (c, Fail(Refused(MethodError(t).value)))
      else match KeyFunc(t)
        case Fail(e) => (c, Fail(Refused(Unverifiable(e))))
        case Ok(kid) =>
          var (c1, key) := Lookup(c, kid, now, f, parsePem);
          match Verified(token, t, key, now, codec)
          case Some(reason) => (c1, Fail(Refused(reason)))
          case None =>
            if t.claims.issuer != Issuer(projectID) then (c1, Fail(Refused("iss mismatch")))
            else match Upsert(registry, LocalUser(t.claims, now))
              case Fail(e) => (c1, Fail(e))
              case Ok(u) => (c1, Ok(Identity.AppSession(u, token, ExpirationTime(t.claims))))
  }

  /** Soundness: an accepted token is a well-formed RS256 token with a key
      id the (refreshed) cache holds, signed under that key, in force at
      `now`, issued for this project; the session carries the token, expires
      at "exp" and, without a registry, holds the local user. */
  lemma {:induction false} AuthenticatedAcceptsOnly(c: Cache, token: string, now: Time, f: Fetched, codec: RsCodec,
                                 parsePem: string -> Result<string>, projectID: string,
                                 registry: Option<Identity.User -> Result<Identity.User>>)
    requires Authenticated(c, token, now, f, codec, parsePem, projectID, registry).1.Ok?
    ensures var r := Authenticated(c, token, now, f, codec, parsePem, projectID, registry);
            codec.decode(token).Some?
            && var t := codec.decode(token).value;
            t.alg == Str("RS256") && t.kid.Str? && t.kid.s in r.0.keys
            && parsePem(r.0.keys[t.kid.s]).Ok? && codec.verify(token, parsePem(r.0.keys[t.kid.s]).value)
            && NotBefore(t.claims) <= now < ExpirationTime(t.claims)
            && t.claims.issuer == Issuer(projectID)
            && r.1.value.token == token && r.1.value.expiry == FromUnix(t.claims.expiresAt)
            && (registry.None? ==> r.1.value.user == LocalUser(t.claims, now))
  {
    var t := codec.decode(token).value;
    var (c1, key) := Lookup(c, t.kid.s, now, f, parsePem);
    assert Verified(token, t, key, now, codec).None?;
  }

  /** Completeness: with a cache that needs no refresh and holds the key,
      a correctly signed RS256 token of this project that is in force is
      accepted, the cache is left as it was, and without a registry the
      session holds the local user. */
  lemma {:induction false} AuthenticatedRoundTrip(c: Cache, token: string, now: Time, f: Fetched, codec: RsCodec,
                               parsePem: string -> Result<string>, projectID: string, t: IdToken)
    requires codec.decode(token) == Some(t)
    requires t.alg == Str("RS256") && t.kid.Str?
    requires !(c.nextSync < now) && t.kid.s in c.keys && parsePem(c.keys[t.kid.s]).Ok?
    requires codec.verify(token, parsePem(c.keys[t.kid.s]).value)
    requires NotBefore(t.claims) <= now < ExpirationTime(t.claims)
    requires t.claims.issuer == Issuer(projectID)
    ensures Authenticated(c, token, now, f, codec, parsePem, projectID, None)
              == (c, Ok(Identity.AppSession(LocalUser(t.claims, now), token, FromUnix(t.claims.expiresAt))))
  {
    assert "RS256" in Jwt.KnownAlgs;
    assert MethodError(t).None?;
    assert Lookup(c, t.kid.s, now, f, parsePem) == (c, parsePem(c.keys[t.kid.s]));
  }

  /** Every refusal is `MissingAuth` (with a hint) unless it is the
      registry's own error for the local user. */
  lemma {:induction false} AuthenticatedFailures(c: Cache, token: string, now: Time, f: Fetched, codec: RsCodec,
                              parsePem: string -> Result<string>, projectID: string,
                              registry: Option<Identity.User -> Result<Identity.User>>)
    requires Authenticated(c, token, now, f, codec, parsePem, projectID, registry).1.Fail?
    ensures var e := Authenticated(c, token, now, f, codec, parsePem, projectID, registry).1.err;
            (exists reason :: e == Refused(reason))
            || (registry.Some? && codec.decode(token).Some?
                && registry.value(LocalUser(codec.decode(token).value.claims, now)) == Fail(e))
  {
    match codec.decode(token)
    case None =>
    case Some(t) =>
      if MethodError(t).None? && KeyFunc(t).Ok? {
        var (c1, key) := Lookup(c, KeyFunc(t).value, now, f, parsePem);
        if Verified(token, t, key, now, codec).None? && t.claims.issuer == Issuer(projectID) {
          assert Upsert(registry, LocalUser(t.claims, now)).Fail?;
        }
      }
  }

  /** Behind the forge gate, a Firebase refusal is a 401, never a 500:
      `Refused` errors match `MissingAuth`. Only a registry's own error can
      come out as an internal issue. */
  lemma {:induction false} ForgeGateAnswersRefusalWith401(c: Cache, token: string, now: Time, f: Fetched, codec: RsCodec,
                                       parsePem: string -> Result<string>, projectID: string)
    requires Authenticated(c, token, now, f, codec, parsePem, projectID, None).1.Fail?
    ensures Gates.AuthDenial(Authenticated(c, token, now, f, codec, parsePem, projectID, None).1.err)
              == Gates.Denial(401, Gates.ErrAuth)
  {
    var e := Authenticated(c, token, now, f, codec, parsePem, projectID, None).1.err;
    AuthenticatedFailures(c, token, now, f, codec, parsePem, projectID, None);
    var reason :| e == Refused(reason);
    assert Is(e, S(CorePkg, MissingAuth));
    AnyIsThree(e, S(CorePkg, NotFound), S(CorePkg, InvalidInput), S(CorePkg, MissingAuth));
  }

  /** `firebase.Auth`: the key cache it owns, the optional user registry
      (`Upsert`) and the Firebase project id. */
  class Auth {
    const keys: KeySource
    const registry: Option<Identity.User -> Result<Identity.User>>
    const projectID: string

    constructor (registry: Option<Identity.User -> Result<Identity.User>>, projectID: string)
      ensures fresh(keys) && keys.State() == Cache(map[], ZeroTime)
      ensures this.registry == registry && this.projectID == projectID
    {
      keys := new KeySource();
      this.registry := registry;
      this.projectID := projectID;
    }

    /** `Authenticate` at `now`, with `fetched` what the key endpoint would
        answer. */
    method Authenticate(token: string, now: Time, fetched: Fetched, codec: RsCodec,
                        parsePem: string -> Result<string>)
      returns (r: Result<Identity.AppSession>)
      modifies keys
      ensures (keys.State(), r) == Authenticated(old(keys.State()), token, now, fetched, codec, parsePem, projectID, registry)
    {
      var decoded := codec.decode(token);
      if decoded.None? {
        return Fail(Refused("token is malformed"));
      }
      var t := decoded.value;
      var methodErr := MethodError(t);
      if methodErr.Some? {
        return Fail(Refused(methodErr.value));
      }
      var kid := KeyFunc(t);
      if kid.Fail? {
        return Fail(Refused(Unverifiable(kid.err)));
      }
      var key := keys.Find(kid.value, now, fetched, parsePem);
      var bad := Verified(token, t, key, now, codec);
      if bad.Some? {
        return Fail(Refused(bad.value));
      }
      if t.claims.issuer != Issuer(projectID) {
        return Fail(Refused("iss mismatch"));
      }
      var local := Upsert(registry, LocalUser(t.claims, now));
      if local.Fail? {
        return Fail(local.err);
      }
      r := Ok(Identity.AppSession(local.value, token, ExpirationTime(t.claims)));
    }
  }
}
