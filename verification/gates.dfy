/** The request gates in front of the apps' handlers: the `authenticate`
    middleware of core/router/mws.go, the `Authenticate` middlewares of
    core/forge/mws.go and ginapp/middlewares.go, and the token extractor the
    two gin apps share.

    The router's extractor is the same code as auth/utils.go's and is
    `AuthUtils.ExtractToken` here. A gin request context is a class whose
    fields record what the middleware did to it: the errors it collected,
    whether it was aborted and with what status and JSON body, the request
    context it carries and whether the next handler ran. */
module Gates {
  import opened Base
  import opened Errors
  import opened Sentinels
  import opened Http
  import Identity
  import AuthUtils
  import JwtAuth
  import Jwt
  import StrUtils

  /** `core.ReqCtx`, over the session type of the auth in use; `verb` is
      its `Method` field. */
  datatype ReqCtx<S> = ReqCtx(path: string, route: string, verb: string, session: Option<S>,
                              requestID: string, remoteAddr: string)

  // --------------------------------------------------------- core/router

  /** What the router's middleware does: run the next handler with a
      request context, or write an error response and stop. */
  datatype Outcome<S> = Next(rc: ReqCtx<S>) | Written(err: Err)

  /** A core/errors `Error` with no code and status 401: under `Is` it
      matches every authentication failure, whatever its code. */
  const AnyMissingAuth: Err := Forge(CorePkg, Error("", None, 401, map[], ""))

  /** `authenticate`: a request without a token goes on untouched; a
      restored session is put in the request context; a restore error is
      written as it is when it matches `authTarget`, and otherwise as an
      internal issue caused by it. As written, `authTarget` is the
      `MissingAuth` sentinel. */
  function RouterAuthenticate<S>(r: Request, cookieName: string, rc: ReqCtx<S>,
                                 restore: string -> Result<S>, authTarget: Err): (o: Outcome<S>)
    ensures var token := AuthUtils.ExtractToken(r, cookieName);
            (o.Next? <==> token == "" || restore(token).Ok?)
            && (token == "" ==> o == Next(rc))
            && (token != "" && restore(token).Ok? ==> o == Next(rc.(session := Some(restore(token).value))))
            && (token != "" && restore(token).Fail? && Is(restore(token).err, authTarget) ==>
                  o == Written(restore(token).err))
            && (token != "" && restore(token).Fail? && !Is(restore(token).err, authTarget) ==>
                  o == Written(SCause(CorePkg, InternalIssue, restore(token).err)))
  {
    var token := AuthUtils.ExtractToken(r, cookieName);
    if token == "" then Next(rc)
    else match restore(token)
      case Fail(e) => if Is(e, authTarget) then Written(e) else Written(SCause(CorePkg, InternalIssue, e))
      case Ok(s) => Next(rc.(session := Some(s)))
  }

  /** Round trip through the router and builtin/jwtauth: a token that
      `CreateSession` issued, sent as a bearer header, lets the request
      through with the session it was issued for. */
  lemma {:induction false} RouterRoundTrip(r: Request, cookieName: string, rc: ReqCtx<Identity.Session>, authTarget: Err,
                        ttl: Duration, secret: string, u: Identity.User, now: Time, draws: seq<int>,
                        codec: Jwt.JwtCodec<JwtAuth.TokenClaims>, valid: JwtAuth.TokenClaims -> Option<Err>)
    requires Jwt.JwtSound(codec)
    requires JwtAuth.New(ttl, secret).Ok?
    requires StrUtils.ValidDraws(8, StrUtils.Charset([]), draws)
    requires JwtAuth.CreateSession(JwtAuth.New(ttl, secret).value, u, now, draws, codec).Ok?
    requires valid(JwtAuth.IssuedClaims(u, now, JwtAuth.New(ttl, secret).value.jwtTTL, StrUtils.RandStrOf(8, [], draws))).None?
    requires HeaderGet(r, AuthUtils.HeaderAuthz) ==
             AuthUtils.BearerPrefix + JwtAuth.CreateSession(JwtAuth.New(ttl, secret).value, u, now, draws, codec).value.1
    ensures var a := JwtAuth.New(ttl, secret).value;
            var s := JwtAuth.CreateSession(a, u, now, draws, codec).value.0;
            RouterAuthenticate(r, cookieName, rc, t => JwtAuth.RestoreSession(a, t, codec, valid), authTarget)
              == Next(rc.(session := Some(Identity.Session(s.id, u.id, FromUnix(Unix(now)), FromUnix(Unix(now + a.jwtTTL))))))
  {
    var a := JwtAuth.New(ttl, secret).value;
    var sid := StrUtils.RandStrOf(8, [], draws);
    var token := JwtAuth.CreateSession(a, u, now, draws, codec).value.1;
    assert codec.sign("HS512", JwtAuth.IssuedClaims(u, now, a.jwtTTL, sid), a.jwtSecret) == Ok(token);
    AuthUtils.BearerRoundTrip(token, r, cookieName);
    JwtAuth.CreateRestoreRoundTrip(ttl, secret, u, now, draws, codec, valid);
  }

  /** The codes and status of the two core sentinels the router compares
      with and answers with. */
  lemma {:induction false} RouterSentinels()
    ensures Sentinel(CorePkg, MissingAuth).code == "missing_auth"
    ensures Sentinel(CorePkg, InternalIssue).code == "internal_issue" && Sentinel(CorePkg, InternalIssue).status == 500
  {
  }

  /** As written: every token builtin/jwtauth rejects is answered with an
      internal issue (status 500), because its errors are `MissingAuth`
      re-coded "invalid_token" and so do not match `MissingAuth`. */
  lemma {:induction false} RouterRejectedTokenIsInternal(r: Request, cookieName: string, rc: ReqCtx<Identity.Session>, a: JwtAuth.JWTAuth,
                                      codec: Jwt.JwtCodec<JwtAuth.TokenClaims>, valid: JwtAuth.TokenClaims -> Option<Err>)
    requires AuthUtils.ExtractToken(r, cookieName) != ""
    requires JwtAuth.RestoreSession(a, AuthUtils.ExtractToken(r, cookieName), codec, valid).Fail?
    ensures var o := RouterAuthenticate(r, cookieName, rc, t => JwtAuth.RestoreSession(a, t, codec, valid), S(CorePkg, MissingAuth));
            o.Written? && o.err.Forge? && o.err.e.code == "internal_issue" && o.err.e.status == 500
  {
    var token := AuthUtils.ExtractToken(r, cookieName);
    var restore := t => JwtAuth.RestoreSession(a, t, codec, valid);
    var res := JwtAuth.RestoreSession(a, token, codec, valid);
    assert restore(token) == res;
    var e := res.err;
    RouterSentinels();
    IsSamePackage(CorePkg, e.e, Sentinel(CorePkg, MissingAuth));
    assert !Is(e, S(CorePkg, MissingAuth));
    assert RouterAuthenticate(r, cookieName, rc, restore, S(CorePkg, MissingAuth)) == Written(SCause(CorePkg, InternalIssue, e));
  }

  /** Corrected: matched by status, a rejected token is answered with the
      restore error itself, a 401 coded "invalid_token". */
  lemma {:induction false} RouterRejectedTokenIsUnauthorized(r: Request, cookieName: string, rc: ReqCtx<Identity.Session>, a: JwtAuth.JWTAuth,
                                          codec: Jwt.JwtCodec<JwtAuth.TokenClaims>, valid: JwtAuth.TokenClaims -> Option<Err>)
    requires AuthUtils.ExtractToken(r, cookieName) != ""
    requires JwtAuth.RestoreSession(a, AuthUtils.ExtractToken(r, cookieName), codec, valid).Fail?
    ensures var o := RouterAuthenticate(r, cookieName, rc, t => JwtAuth.RestoreSession(a, t, codec, valid), AnyMissingAuth);
            o == Written(JwtAuth.RestoreSession(a, AuthUtils.ExtractToken(r, cookieName), codec, valid).err)
            && o.err.Forge? && o.err.e.code == "invalid_token" && o.err.e.status == 401
  {
  }

  // ------------------------------------------------ core/forge and ginapp

  const ForgeCookie: string := "_forge_auth"

  /** `extractToken` of core/forge/mws.go and ginapp/ginapp.go: the rest of
      an Authorization header after an exact "Bearer " prefix, NOT
      trimmed; otherwise the "_forge_auth" cookie as gin reads it
      (`url.QueryUnescape`d, "" when that fails), trimmed; "" without
      either. */
  function ForgeExtractToken(r: Request, unescape: string -> Option<string>): (t: string)
    ensures HasPrefix(HeaderGet(r, AuthUtils.HeaderAuthz), AuthUtils.BearerPrefix) ==>
              t == HeaderGet(r, AuthUtils.HeaderAuthz)[|AuthUtils.BearerPrefix|..]
    ensures !HasPrefix(HeaderGet(r, AuthUtils.HeaderAuthz), AuthUtils.BearerPrefix) ==>
              t == if ForgeCookie in r.cookies && unescape(r.cookies[ForgeCookie]).Some?
                   then TrimSpace(unescape(r.cookies[ForgeCookie]).value) else ""
  {
    var authH := HeaderGet(r, AuthUtils.HeaderAuthz);
    if HasPrefix(authH, AuthUtils.BearerPrefix) then authH[|AuthUtils.BearerPrefix|..]
    else if ForgeCookie !in r.cookies then ""
    else match unescape(r.cookies[ForgeCookie])
      case None => ""
      case Some(v) => TrimSpace(v)
  }

  /** The copies of `extractToken` differ on a bearer header: the gin apps
      keep the white space after "Bearer ", auth/utils.go and the router
      trim it. A header of "Bearer " and one blank is a one-space token for
      the gin apps and no token at all for the others. */
  lemma {:induction false} ExtractTokenCopiesDiffer(r: Request, token: string, cookieName: string, unescape: string -> Option<string>)
    requires HeaderGet(r, AuthUtils.HeaderAuthz) == AuthUtils.BearerPrefix + token
    ensures ForgeExtractToken(r, unescape) == token
    ensures AuthUtils.ExtractToken(r, cookieName) == TrimSpace(token)
    ensures token == " " ==> ForgeExtractToken(r, unescape) != "" && AuthUtils.ExtractToken(r, cookieName) == ""
  {
    assert (AuthUtils.BearerPrefix + token)[..|AuthUtils.BearerPrefix|] == AuthUtils.BearerPrefix;
    assert (AuthUtils.BearerPrefix + token)[|AuthUtils.BearerPrefix|..] == token;
    if token == " " {
      assert TrimLeft(token) == TrimLeft(token[1..]);
    }
  }

  /** Without a bearer header the copies agree on the "_forge_auth" cookie
      when unescaping leaves its value as it is. */
  lemma {:induction false} ExtractTokenCookieAgrees(r: Request, unescape: string -> Option<string>)
    requires !HasPrefix(HeaderGet(r, AuthUtils.HeaderAuthz), AuthUtils.BearerPrefix)
    requires ForgeCookie in r.cookies ==> unescape(r.cookies[ForgeCookie]) == Some(r.cookies[ForgeCookie])
    ensures ForgeExtractToken(r, unescape) == AuthUtils.ExtractToken(r, ForgeCookie)
  {
  }

  /** What the forge gate answers when the auth refuses a token. */
  datatype Denial = Denial(status: int, body: Err)

  /** The JSON body of an authentication refusal: the `MissingAuth` error
      that `ctx.Error` recorded. */
  const ErrAuth: Err := S(CorePkg, MissingAuth)

  /** The auth's error, sorted by `errors.OneOf` against `NotFound`,
      `InvalidInput` and `MissingAuth`: a match is a 401 with `ErrAuth`,
      anything else a 500 internal issue caused by the error. */
  function AuthDenial(err: Err): (d: Denial)
    ensures AnyIs(err, [S(CorePkg, NotFound), S(CorePkg, InvalidInput), S(CorePkg, MissingAuth)]) ==>
              d == Denial(401, ErrAuth)
    ensures !AnyIs(err, [S(CorePkg, NotFound), S(CorePkg, InvalidInput), S(CorePkg, MissingAuth)]) ==>
              d == Denial(500, SCause(CorePkg, InternalIssue, err))
  {
    AnyIsThree(err, S(CorePkg, NotFound), S(CorePkg, InvalidInput), S(CorePkg, MissingAuth));
    if Is(err, S(CorePkg, NotFound)) || Is(err, S(CorePkg, InvalidInput)) || Is(err, S(CorePkg, MissingAuth))
    then Denial(401, ErrAuth)
    else Denial(500, SCause(CorePkg, InternalIssue, err))
  }

  /** Which errors the forge gate turns into a 401: a core/errors value
      carrying exactly the code and status of `NotFound`, `InvalidInput` or
      `MissingAuth` (hints and causes do not matter, a different code
      does), a pkg/errors value only when it is internal, and no foreign
      error. */
  lemma {:induction false} AuthDenialKinds(err: Err)
    ensures err.Forge? && err.pkg == CorePkg ==>
              (AuthDenial(err).status == 401 <==>
                 (err.e.code == "not_found" && err.e.status == 404)
                 || (err.e.code == "invalid_input" && err.e.status == 400)
                 || (err.e.code == "missing_auth" && err.e.status == 401))
    ensures err.Forge? && err.pkg == PkgPkg ==> (AuthDenial(err).status == 401 <==> err.e.status == InternalStatus)
    ensures err.Foreign? ==> AuthDenial(err) == Denial(500, SCause(CorePkg, InternalIssue, err))
    ensures AuthDenial(err).status == 401 || AuthDenial(err).status == 500
  {
    AnyIsThree(err, S(CorePkg, NotFound), S(CorePkg, InvalidInput), S(CorePkg, MissingAuth));
  }

  /** A gin request context, as far as the middlewares touch it. */
  class GinContext {
    var request: Request
    var errors: seq<Err>
    var aborted: bool
    var status: int
    var body: Option<Err>
    var reqCtx: ReqCtx<Identity.AppSession>
    var nextCalled: bool

    constructor (request: Request, reqCtx: ReqCtx<Identity.AppSession>)
      ensures this.request == request && this.reqCtx == reqCtx
      ensures errors == [] && !aborted && status == 200 && body.None? && !nextCalled
    {
      this.request := request;
      this.reqCtx := reqCtx;
      errors := [];
      aborted := false;
      status := 200;
      body := None;
      nextCalled := false;
    }

    /** `ctx.Error(err)`: one more collected error. */
    method Error(err: Err)
      modifies this
      ensures errors == old(errors) + [err]
      ensures request == old(request) && aborted == old(aborted) && status == old(status)
      ensures body == old(body) && reqCtx == old(reqCtx) && nextCalled == old(nextCalled)
    {
      errors := errors + [err];
    }

    /** `ctx.AbortWithStatusJSON(code, obj)`. */
    method AbortWithStatusJSON(code: int, obj: Err)
      modifies this
      ensures aborted && status == code && body == Some(obj)
      ensures request == old(request) && errors == old(errors) && reqCtx == old(reqCtx) && nextCalled == old(nextCalled)
    {
      aborted := true;
      status := code;
      body := Some(obj);
    }

    /** `ctx.Next()`, after the request context was stored. */
    method Next(rc: ReqCtx<Identity.AppSession>)
      modifies this
      ensures nextCalled && reqCtx == rc
      ensures request == old(request) && errors == old(errors) && aborted == old(aborted)
      ensures status == old(status) && body == old(body)
    {
      reqCtx := rc;
      nextCalled := true;
    }
  }

  /** `forgeApp.Authenticate`: records `MissingAuth` on every request; with
      no auth configured or no token it aborts with 401; an error from
      `auth.Authenticate` aborts as `AuthDenial` says; a session is put in
      the request context and the next handler runs. */
  method ForgeAuthenticate(ctx: GinContext, auth: Option<string -> Result<Identity.AppSession>>,
                           unescape: string -> Option<string>)
    modifies ctx
    ensures ctx.errors == old(ctx.errors) + [ErrAuth] && ctx.request == old(ctx.request)
    ensures var token := ForgeExtractToken(old(ctx.request), unescape);
            (auth.None? || token == "") ==>
              ctx.aborted && ctx.status == 401 && ctx.body == Some(ErrAuth)
              && ctx.nextCalled == old(ctx.nextCalled) && ctx.reqCtx == old(ctx.reqCtx)
    ensures var token := ForgeExtractToken(old(ctx.request), unescape);
            (auth.Some? && token != "" && auth.value(token).Fail?) ==>
              ctx.aborted && ctx.status == AuthDenial(auth.value(token).err).status
              && ctx.body == Some(AuthDenial(auth.value(token).err).body)
              && ctx.nextCalled == old(ctx.nextCalled) && ctx.reqCtx == old(ctx.reqCtx)
    ensures var token := ForgeExtractToken(old(ctx.request), unescape);
            (auth.Some? && token != "" && auth.value(token).Ok?) ==>
              ctx.nextCalled && ctx.reqCtx == old(ctx.reqCtx).(session := Some(auth.value(token).value))
              && ctx.aborted == old(ctx.aborted) && ctx.status == old(ctx.status) && ctx.body == old(ctx.body)
  {
    ctx.Error(ErrAuth);
    if auth.None? {
      ctx.AbortWithStatusJSON(401, ErrAuth);
      return;
    }
    var token := ForgeExtractToken(ctx.request, unescape);
    if token == "" {
      ctx.AbortWithStatusJSON(401, ErrAuth);
      return;
    }
    match auth.value(token)
    case Fail(e) =>
      var known := OneOf(e, [S(CorePkg, NotFound), S(CorePkg, InvalidInput), S(CorePkg, MissingAuth)]);
      if known {
        ctx.AbortWithStatusJSON(401, ErrAuth);
      } else {
        ctx.AbortWithStatusJSON(500, SCause(CorePkg, InternalIssue, e));
      }
    case Ok(se) =>
      ctx.Next(ctx.reqCtx.(session := Some(se)));
  }

  /** ginapp's `Authenticate`: records `MissingAuth` on every request and
      aborts with 401 when there is no token, but lets any token through
      without checking it and without putting a session in the context. */
  method GinAuthenticate(ctx: GinContext, unescape: string -> Option<string>)
    modifies ctx
    ensures ctx.errors == old(ctx.errors) + [ErrAuth] && ctx.request == old(ctx.request)
    ensures ctx.reqCtx == old(ctx.reqCtx)
    ensures ForgeExtractToken(old(ctx.request), unescape) == "" ==>
              ctx.aborted && ctx.status == 401 && ctx.body == Some(ErrAuth) && ctx.nextCalled == old(ctx.nextCalled)
    ensures ForgeExtractToken(old(ctx.request), unescape) != "" ==>
              ctx.nextCalled && ctx.aborted == old(ctx.aborted) && ctx.status == old(ctx.status) && ctx.body == old(ctx.body)
  {
    ctx.Error(ErrAuth);
    var token := ForgeExtractToken(ctx.request, unescape);
    if token == "" {
      ctx.AbortWithStatusJSON(401, ErrAuth);
      return;
    }
    ctx.Next(ctx.reqCtx);
  }
}
