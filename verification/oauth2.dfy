/** auth/oauth2.go: the OAuth2 flow-state cookie, set when the user is sent
    to the provider and popped (always cleared) when the provider calls
    back, and the check that the callback's `state` is the one the flow
    began with (the CSRF defence of section 10.12 of RFC 6749).

    The goth session is represented by its marshalled text; the provider
    library's `GetAuthURL` and `net/url`'s parse-and-query are parameters. */
module OAuth2 {
  import opened Base
  import opened Errors
  import opened Http

  const FlowCookie: string := "_oauth_state"
  const FlowCookieTTL: Duration := 10 * Minute

  /** `oauth2FlowState`. */
  datatype FlowState = FlowState(userKind: string, provider: string, session: string, redirectTo: string)

  /** The zero value the popped state starts from. */
  const ZeroState: FlowState := FlowState("", "", "", "")

  /** The cookie `setOAuthFlowState` writes: without a state, an empty value
      expiring at once (which clears it); with one, its encoding, expiring
      ten minutes from now. */
  function FlowStateCookie(state: Option<FlowState>, now: Time, codec: CookieCodec<FlowState>): (c: Cookie)
    requires state.Some? ==> MarshalCookie(state.value, codec).Ok?
    ensures c.name == FlowCookie && c.path == "/" && !c.secure && c.httpOnly && c.sameSiteLax
    ensures state.None? ==> c.value == "" && c.expires == now
    ensures state.Some? ==> c.value == MarshalCookie(state.value, codec).value && c.expires == now + FlowCookieTTL
  {
    match state
    case None => Cookie(FlowCookie, "", "/", now, false, true, true)
    case Some(s) => Cookie(FlowCookie, MarshalCookie(s, codec).value, "/", now + FlowCookieTTL, false, true, true)
  }

  /** `setOAuthFlowState` at time `now`. */
  method SetOAuthFlowState(w: ResponseWriter, state: Option<FlowState>, now: Time, codec: CookieCodec<FlowState>)
    requires state.Some? ==> MarshalCookie(state.value, codec).Ok?
    modifies w
    ensures w.setCookies == old(w.setCookies) + [FlowStateCookie(state, now, codec)]
  {
    var c := Cookie(FlowCookie, "", "/", now, false, true, true);
    if state.Some? {
      var value := MarshalCookie(state.value, codec).value;
      c := c.(value := value, expires := now + FlowCookieTTL);
    }
    w.SetCookie(c);
  }

  /** What `popOAuthState` returns: nil exactly when `UnmarshalCookie`
      reports failure; a value that is not base64 gives the zero state. */
  function PoppedState(r: Request, codec: CookieCodec<FlowState>): (st: Option<FlowState>)
    ensures st.None? <==> !UnmarshalCookie(r, FlowCookie, ZeroState, codec).ok
    ensures FlowCookie !in r.cookies || r.cookies[FlowCookie] == "" ==> st.None?
    ensures FlowCookie in r.cookies && r.cookies[FlowCookie] != "" && codec.unb64(r.cookies[FlowCookie]).None? ==>
              st == Some(ZeroState)
  {
    var d := UnmarshalCookie(r, FlowCookie, ZeroState, codec);
    if d.ok then Some(d.into) else None
  }

  /** Round trip: a request carrying the cookie `setOAuthFlowState` wrote
      for a state pops that state. */
  lemma {:induction false} FlowStateRoundTrip(s: FlowState, now: Time, r: Request, codec: CookieCodec<FlowState>)
    requires CodecSound(codec)
    requires MarshalCookie(s, codec).Ok?
    requires FlowCookie in r.cookies && r.cookies[FlowCookie] == FlowStateCookie(Some(s), now, codec).value
    ensures PoppedState(r, codec) == Some(s)
  {
    CookieRoundTrip(s, ZeroState, r, FlowCookie, codec);
  }

  /** `popOAuthState`: whatever it returns, the deferred call leaves the
      flow cookie cleared. */
  method PopOAuthState(w: ResponseWriter, r: Request, now: Time, codec: CookieCodec<FlowState>)
    returns (st: Option<FlowState>)
    modifies w
    ensures st == PoppedState(r, codec)
    ensures w.setCookies == old(w.setCookies) + [FlowStateCookie(None, now, codec)]
  {
    var d := UnmarshalCookie(r, FlowCookie, ZeroState, codec);
    if !d.ok {
      st := None;
    } else {
      st := Some(d.into);
    }
    SetOAuthFlowState(w, None, now, codec);
  }

  /** The "state" parameter of a parsed query, "" when absent. */
  function StateParam(q: map<string, string>): string
  {
    if "state" in q then q["state"] else ""
  }

  /** `checkCallbackState`: false when the session's auth URL cannot be had
      or parsed; otherwise whether its "state" parameter equals the one the
      callback carries. */
  function CheckCallbackState(authURL: Result<string>, actual: string,
                              parseQuery: string -> Option<map<string, string>>): (ok: bool)
    ensures authURL.Fail? ==> !ok
    ensures authURL.Ok? && parseQuery(authURL.value).None? ==> !ok
    ensures authURL.Ok? && parseQuery(authURL.value).Some? ==>
              (ok <==> StateParam(parseQuery(authURL.value).value) == actual)
  {
    match authURL
    case Fail(_) => false
    case Ok(u) =>
      match parseQuery(u)
      case None => false
      case Some(q) => StateParam(q) == actual
  }

  /** At most one callback state passes, the one in the URL; an auth URL
      without a "state" parameter passes a callback without one. */
  lemma {:induction false} CallbackStateUnique(authURL: Result<string>, a: string, b: string,
                            parseQuery: string -> Option<map<string, string>>)
    ensures CheckCallbackState(authURL, a, parseQuery) && CheckCallbackState(authURL, b, parseQuery) ==> a == b
    ensures (authURL.Ok? && parseQuery(authURL.value).Some? && "state" !in parseQuery(authURL.value).value) ==>
              CheckCallbackState(authURL, "", parseQuery)
  {
  }
}
