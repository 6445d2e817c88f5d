/** auth/auth_routes.go: the decisions of the auth module's HTTP handlers
    (register, OAuth2 redirect and callback, verify, login, who-am-I) over
    the user store. Reading the request body, writing responses and
    redirects, and issuing the session cookie after a login are not part of
    this model; each handler returns the user it would log in or show, or
    the error it would write.

    `ep` is the errors package whose sentinels the handlers build and test
    against. The file imports core/errors (`CorePkg`), while every error
    the store returns is a pkg/errors value, so `errors.Is(err,
    errors.NotFound)` never holds for a missing row; `PkgPkg` gives the
    behaviour the handlers evidently intend. */
module Routes {
  import opened Base
  import opened Errors
  import opened Sentinels
  import opened Identity
  import opened Http
  import opened UserStore
  import opened OAuth2
  import opened AuthUtils
  import AuthSession
  import StrUtils
  import Email

  // ---------------------------------------------------------------- login

  /** The login key `doLogin` looks the user up by: the e-mail address when
      one is given, otherwise the username. */
  function LoginKey(c: Creds): (key: string)
    ensures '/' in key
    ensures c.email != "" ==> SplitAuthKey(key) == (KeyKindEmail, c.email)
    ensures c.email == "" ==> SplitAuthKey(key) == (KeyKindUsername, c.username)
  {
    SplitNewAuthKey(KeyKindEmail, c.email);
    SplitNewAuthKey(KeyKindUsername, c.username);
    if c.email != "" then NewAuthKey(KeyKindEmail, c.email) else NewAuthKey(KeyKindUsername, c.username)
  }

  /** What `doLogin` makes of the lookup. A lookup error matching
      `NotFound` becomes "user not found", any other is passed on; a found
      user must then pass the password check, the e-mail comparison (only
      when an e-mail was given) and the kind comparison, each failure a
      `MissingAuth`. */
  function LoginDecision(ep: Pkg, c: Creds, found: Result<User>, matches: (string, string) -> bool): (r: Result<User>)
    ensures r.Ok? <==> (found.Ok? && CheckPassword(found.value.pwdHash, c.password, matches)
                        && (c.email == "" || c.email == found.value.email) && found.value.kind == c.kind)
    ensures r.Ok? ==> r == found
    ensures found.Fail? && Is(found.err, S(ep, NotFound)) ==> r == Fail(SHint(ep, MissingAuth, "user not found"))
    ensures found.Fail? && !Is(found.err, S(ep, NotFound)) ==> r == found
    ensures found.Ok? && r.Fail? ==> Is(r.err, S(ep, MissingAuth)) && !Is(r.err, S(ep, InternalIssue))
  {
    match found
    case Fail(e) => if Is(e, S(ep, NotFound)) then Fail(SHint(ep, MissingAuth, "user not found")) else Fail(e)
    case Ok(u) =>
      if !CheckPassword(u.pwdHash, c.password, matches) then Fail(SHint(ep, MissingAuth, "password mismatch"))
      else if c.email != "" && c.email != u.email then Fail(SHint(ep, MissingAuth, "email mismatch"))
      else if u.kind != c.kind then Fail(SHint(ep, MissingAuth, "user kind mismatch"))
      else Ok(u)
  }

  /** `doLogin` on credentials read from the request: their check, then the
      lookup (`fault` is a failure of the query), then the decision. */
  method DoLogin(store: Store, ep: Pkg, c: Creds, valid: string -> bool, matches: (string, string) -> bool,
                 fault: Option<Foreign>) returns (r: Result<User>)
    requires store.Valid()
    ensures SanitizeAndValidate(c, valid).Some? ==> r == Fail(SanitizeAndValidate(c, valid).value)
    ensures SanitizeAndValidate(c, valid).None? && fault.Some? ==>
              r == LoginDecision(ep, c, Fail(Translate(Foreign(fault.value))), matches)
    ensures SanitizeAndValidate(c, valid).None? && fault.None? ==>
              r == LoginDecision(ep, c, store.Lookup(LoginKey(c)), matches)
  {
    var err := SanitizeAndValidate(c, valid);
    if err.Some? {
      return Fail(err.value);
    }
    var found := store.GetUser(LoginKey(c), fault);
    r := LoginDecision(ep, c, found, matches);
  }

  /** The e-mail login key finds the user holding that address. */
  lemma {:induction false} LoginFindsByEmail(store: Store, id: string, email: string)
    requires store.Valid() && id in store.users && store.users[id].email == email
    ensures '/' in NewAuthKey(KeyKindEmail, email)
    ensures store.Lookup(NewAuthKey(KeyKindEmail, email)) == Ok(store.users[id])
  {
    var key := NewAuthKey(KeyKindEmail, email);
    SplitNewAuthKey(KeyKindEmail, email);
    assert store.Matches(store.users[id], key);
    forall j | j in store.users && store.Matches(store.users[j], key)
      ensures j == id
    {
    }
  }

  /** A stored user logs in with its e-mail address, its kind and a
      password its hash matches. */
  lemma {:induction false} RegisteredUserLogsIn(store: Store, ep: Pkg, id: string, c: Creds, matches: (string, string) -> bool)
    requires store.Valid() && id in store.users
    requires c.email != "" && c.email == store.users[id].email && c.kind == store.users[id].kind
    requires CheckPassword(store.users[id].pwdHash, c.password, matches)
    ensures LoginDecision(ep, c, store.Lookup(LoginKey(c)), matches) == Ok(store.users[id])
  {
    LoginFindsByEmail(store, id, c.email);
  }

  // ------------------------------------------------------------- register

  /** The user `doRegister` hands to the store, or why it stops before: the
      credentials' check, then an e-mail address is required (so a
      username-only registration cannot succeed), then the password gate. */
  function RegisterCandidate(ep: Pkg, c: Creds, valid: string -> bool, bcrypt: string -> Result<string>, now: Time,
                             digitDraws: seq<int>, tokenDraws: seq<int>, idDraws: seq<int>): (r: Result<User>)
    requires NewUserDraws(c.username, digitDraws, tokenDraws, idDraws)
    ensures SanitizeAndValidate(c, valid).Some? ==> r == Fail(SanitizeAndValidate(c, valid).value)
    ensures SanitizeAndValidate(c, valid).None? && !valid(c.email) ==> r == Fail(SHint(ep, MissingAuth, "invalid email"))
    ensures SanitizeAndValidate(c, valid).None? && valid(c.email) && HashPassword(c.password, bcrypt).Fail? ==>
              r == Fail(HashPassword(c.password, bcrypt).err)
    ensures r.Ok? ==> valid(c.email) && StrongPassword(c.password) && bcrypt(c.password).Ok?
    ensures r.Ok? ==> r.value == NewUser(c.kind, c.username, c.email, now, digitDraws, tokenDraws, idDraws)
                                   .(pwdHash := Some(bcrypt(c.password).value))
  {
    if SanitizeAndValidate(c, valid).Some? then Fail(SanitizeAndValidate(c, valid).value)
    else if !valid(c.email) then Fail(SHint(ep, MissingAuth, "invalid email"))
    else match HashPassword(c.password, bcrypt)
      case Fail(e) => Fail(e)
      case Ok(h) => Ok(NewUser(c.kind, c.username, c.email, now, digitDraws, tokenDraws, idDraws).(pwdHash := Some(h)))
  }

  /** With the e-mail validator the upstream tests describe, registering
      without an e-mail address always fails. */
  lemma {:induction false} UsernameOnlyRegistrationFails(ep: Pkg, c: Creds, valid: string -> bool, bcrypt: string -> Result<string>,
                                      now: Time, digitDraws: seq<int>, tokenDraws: seq<int>, idDraws: seq<int>)
    requires Email.EmailTestFacts(valid)
    requires NewUserDraws(c.username, digitDraws, tokenDraws, idDraws)
    requires c.email == ""
    ensures RegisterCandidate(ep, c, valid, bcrypt, now, digitDraws, tokenDraws, idDraws).Fail?
  {
  }

  /** How `doRegister` passes on a `RegisterUser` failure: unchanged when it
      matches `Conflict` or `InvalidInput`, otherwise as an internal issue
      caused by it. */
  function RegisterError(ep: Pkg, e: Err): (r: Err)
    ensures AnyIs(e, [S(ep, Conflict), S(ep, InvalidInput)]) ==> r == e
    ensures !AnyIs(e, [S(ep, Conflict), S(ep, InvalidInput)]) ==> r == SCause(ep, InternalIssue, e)
    ensures Is(r, S(ep, Conflict)) || Is(r, S(ep, InvalidInput)) || Is(r, S(ep, InternalIssue))
  {
    AnyIsTwo(e, S(ep, Conflict), S(ep, InvalidInput));
    if Is(e, S(ep, Conflict)) || Is(e, S(ep, InvalidInput)) then e else SCause(ep, InternalIssue, e)
  }

  /** The store half of `doRegister`: `u` is registered without login
      keys; a failure is passed on through `RegisterError`, a success
      returns the redacted clone. */
  method RegisterWithoutKeys(store: Store, ep: Pkg, u: User, enabledKinds: seq<string>, now: Time,
                             valid: string -> bool, faults: TxFaults) returns (r: Result<User>)
    requires store.Valid()
    modifies store
    ensures store.Valid()
    ensures var v := Stamped(u, now);
            var f := RegisterFailure(old(store.users), old(store.keys), v, [], enabledKinds, valid, faults);
            (f.Some? ==> r == Fail(RegisterError(ep, f.value)) && store.users == old(store.users) && store.keys == old(store.keys))
            && (f.None? ==> r == Ok(Cloned(v, true)) && store.users == old(store.users)[v.id := v] && store.keys == old(store.keys))
  {
    ghost var users0, keys0 := store.users, store.keys;
    var res := store.RegisterUser(u, [], enabledKinds, now, valid, faults);
    if res.Fail? {
      var keep := OneOf(res.err, [S(ep, Conflict), S(ep, InvalidInput)]);
      if keep {
        r := Fail(res.err);
      } else {
        r := Fail(SCause(ep, InternalIssue, res.err));
      }
      return;
    }
    KeyRowsShape(res.value.id, []);
    assert keys0 + map[] == keys0;
    var registered := Identity.Clone(res.value, true);
    r := Ok(registered);
  }

  /** `doRegister`: the credentials become a candidate user, which is then
      registered without login keys; a success returns the redacted clone
      (sent with status 201). */
  method DoRegister(store: Store, ep: Pkg, c: Creds, valid: string -> bool, bcrypt: string -> Result<string>,
                    enabledKinds: seq<string>, now: Time, digitDraws: seq<int>, tokenDraws: seq<int>, idDraws: seq<int>,
                    faults: TxFaults) returns (r: Result<User>)
    requires store.Valid()
    requires NewUserDraws(c.username, digitDraws, tokenDraws, idDraws)
    modifies store
    ensures store.Valid()
    ensures var cand := RegisterCandidate(ep, c, valid, bcrypt, now, digitDraws, tokenDraws, idDraws);
            cand.Fail? ==> r == cand && store.users == old(store.users) && store.keys == old(store.keys)
    ensures var cand := RegisterCandidate(ep, c, valid, bcrypt, now, digitDraws, tokenDraws, idDraws);
            cand.Ok? ==>
              var v := Stamped(cand.value, now);
              var f := RegisterFailure(old(store.users), old(store.keys), v, [], enabledKinds, valid, faults);
              (f.Some? ==> r == Fail(RegisterError(ep, f.value)) && store.users == old(store.users) && store.keys == old(store.keys))
              && (f.None? ==> r == Ok(Cloned(v, true)) && store.users == old(store.users)[v.id := v] && store.keys == old(store.keys))
  {
    var cand := RegisterCandidate(ep, c, valid, bcrypt, now, digitDraws, tokenDraws, idDraws);
    if cand.Fail? {
      return cand;
    }
    r := RegisterWithoutKeys(store, ep, cand.value, enabledKinds, now, valid, faults);
  }

  /** Round trip: once the store holds the user a registration produced,
      the same credentials log in, provided the kind was given already
      trimmed (a kind read as "" is stored as "user" and then no longer
      equals the credentials' kind). */
  lemma {:induction false} RegisterThenLogin(store: Store, ep: Pkg, c: Creds, valid: string -> bool, bcrypt: string -> Result<string>,
                          matches: (string, string) -> bool, now: Time,
                          digitDraws: seq<int>, tokenDraws: seq<int>, idDraws: seq<int>)
    requires store.Valid()
    requires Email.EmailTestFacts(valid) && BcryptSound(bcrypt, matches)
    requires NewUserDraws(c.username, digitDraws, tokenDraws, idDraws)
    requires c.kind != "" && TrimSpace(c.kind) == c.kind
    requires RegisterCandidate(ep, c, valid, bcrypt, now, digitDraws, tokenDraws, idDraws).Ok?
    requires var v := Stamped(RegisterCandidate(ep, c, valid, bcrypt, now, digitDraws, tokenDraws, idDraws).value, now);
             v.id in store.users && store.users[v.id] == v
    ensures LoginDecision(ep, c, store.Lookup(LoginKey(c)), matches)
            == Ok(Stamped(RegisterCandidate(ep, c, valid, bcrypt, now, digitDraws, tokenDraws, idDraws).value, now))
  {
    var v := Stamped(RegisterCandidate(ep, c, valid, bcrypt, now, digitDraws, tokenDraws, idDraws).value, now);
    assert c.email != "";
    assert v.pwdHash == Some(bcrypt(c.password).value);
    RegisteredUserLogsIn(store, ep, v.id, c, matches);
  }

  // ------------------------------------------------------- OAuth2 redirect

  /** A goth user profile. */
  datatype GothUser = GothUser(
    provider: string,
    userID: string,
    email: string,
    name: string,
    avatarURL: string,
    location: string,
    nickName: string,
    expiresAt: Time,
    accessToken: string,
    refreshToken: string,
    rawData: map<string, Value>)

  /** The goth library as far as the handlers use it. A provider is named
      by what `Name()` returns and a session by its marshalled text:
      `getProvider` looks a provider up, `beginAuth` starts a session with
      a state value, `authURL` is the session's `GetAuthURL`,
      `unmarshalSession` the provider's `UnmarshalSession`, `authorize`
      gives the session updated by `Authorize`, `fetchUser` the profile;
      `parseQuery` is `url.Parse` followed by `Query()`. */
  datatype Goth = Goth(
    getProvider: string -> Result<string>,
    beginAuth: (string, string) -> Result<string>,
    authURL: string -> Result<string>,
    unmarshalSession: (string, string) -> Result<string>,
    authorize: (string, string, map<string, string>) -> Result<string>,
    fetchUser: (string, string) -> Result<GothUser>,
    parseQuery: string -> Option<map<string, string>>)

  /** What is assumed of the providers: a session they began unmarshals to
      itself, and its auth URL carries the state it began with. */
  ghost predicate GothSound(g: Goth)
  {
    (forall p, s :: g.beginAuth(p, s).Ok? ==> g.unmarshalSession(p, g.beginAuth(p, s).value) == g.beginAuth(p, s))
    && (forall p, s :: g.beginAuth(p, s).Ok? && g.authURL(g.beginAuth(p, s).value).Ok? ==>
          g.parseQuery(g.authURL(g.beginAuth(p, s).value).value).Some?
          && StateParam(g.parseQuery(g.authURL(g.beginAuth(p, s).value).value).value) == s)
  }

  /** Where the provider is to send the user, and the flow state to keep. */
  datatype Redirect = Redirect(authURL: string, flow: FlowState)

  /** The user kind an OAuth2 flow asks for: the "kind" parameter, "user"
      when it is empty. */
  function RequestedKind(r: Request): (k: string)
    ensures k != ""
    ensures QueryGet(r, "kind") != "" ==> k == QueryGet(r, "kind")
  {
    if QueryGet(r, "kind") == "" then DefaultUserKind else QueryGet(r, "kind")
  }

  /** `prepareRedirection`: the kind must be enabled, the provider known;
      a session is begun with a 10-character random state. */
  function PrepareRedirection(ep: Pkg, r: Request, enabledKinds: seq<string>, g: Goth, draws: seq<int>): (res: Result<Redirect>)
    requires StrUtils.ValidDraws(10, StrUtils.Charset([]), draws)
    ensures RequestedKind(r) !in enabledKinds ==>
              res == Fail(SCodedHint(ep, InvalidInput, "invalid_kind", "user kind '" + RequestedKind(r) + "' is not valid"))
    ensures RequestedKind(r) in enabledKinds && g.getProvider(QueryGet(r, "p")).Fail? ==>
              res == Fail(Forge(ep, CausedBy(Coded(Sentinel(ep, InvalidInput), "invalid_provider", []),
                                              Some(g.getProvider(QueryGet(r, "p")).err))))
    ensures res.Ok? ==> RequestedKind(r) in enabledKinds && res.value.flow.userKind == RequestedKind(r)
                        && g.getProvider(QueryGet(r, "p")) == Ok(res.value.flow.provider)
                        && g.beginAuth(res.value.flow.provider, StrUtils.RandStrOf(10, [], draws)) == Ok(res.value.flow.session)
                        && g.authURL(res.value.flow.session) == Ok(res.value.authURL)
                        && res.value.flow.redirectTo == QueryGet(r, "redirect_to")
    ensures res.Fail? && RequestedKind(r) in enabledKinds && g.getProvider(QueryGet(r, "p")).Ok? ==>
              Is(res.err, S(ep, InternalIssue))
  {
    var kind := RequestedKind(r);
    if kind !in enabledKinds then
      Fail(SCodedHint(ep, InvalidInput, "invalid_kind", "user kind '" + kind + "' is not valid"))
    else match g.getProvider(QueryGet(r, "p"))
      case Fail(e) => Fail(Forge(ep, CausedBy(Coded(Sentinel(ep, InvalidInput), "invalid_provider", []), Some(e))))
      case Ok(p) =>
        var state := StrUtils.RandStrOf(10, [], draws);
        match g.beginAuth(p, state)
        case Fail(e) => Fail(SCause(ep, InternalIssue, e))
        case Ok(sess) =>
          match g.authURL(sess)
          case Fail(e) => Fail(SCause(ep, InternalIssue, e))
          case Ok(u) => Ok(Redirect(u, FlowState(kind, p, sess, QueryGet(r, "redirect_to"))))
  }

  /** The CSRF defence: for a flow that `prepareRedirection` began, the
      callback's state check passes for the drawn state and for no other
      value. */
  lemma {:induction false} RedirectStateChecks(ep: Pkg, r: Request, enabledKinds: seq<string>, g: Goth, draws: seq<int>, actual: string)
    requires GothSound(g)
    requires StrUtils.ValidDraws(10, StrUtils.Charset([]), draws)
    requires PrepareRedirection(ep, r, enabledKinds, g, draws).Ok?
    ensures var flow := PrepareRedirection(ep, r, enabledKinds, g, draws).value.flow;
            g.unmarshalSession(flow.provider, flow.session) == Ok(flow.session)
            && (CheckCallbackState(g.authURL(flow.session), actual, g.parseQuery) <==> actual == StrUtils.RandStrOf(10, [], draws))
  {
    var flow := PrepareRedirection(ep, r, enabledKinds, g, draws).value.flow;
    var state := StrUtils.RandStrOf(10, [], draws);
    assert g.beginAuth(flow.provider, state) == Ok(flow.session);
  }

  // ------------------------------------------------------- OAuth2 callback

  /** `errInvalidCB`: `InvalidInput` re-coded "invalid_callback". */
  function InvalidCallback(ep: Pkg): Error
  {
    Coded(Sentinel(ep, InvalidInput), "invalid_callback", [])
  }

  /** The callback's exchange with the provider, from the popped flow
      state: the provider, the session and the state check, each failure an
      `invalid_callback`; then authorisation and the profile fetch, each
      failure an internal issue. */
  function Handshake(ep: Pkg, st: FlowState, r: Request, g: Goth): (res: Result<GothUser>)
    ensures g.getProvider(st.provider).Fail? ==>
              res == Fail(Forge(ep, CausedBy(InvalidCallback(ep), Some(g.getProvider(st.provider).err))))
    ensures res.Ok? ==>
              g.getProvider(st.provider).Ok?
              && g.unmarshalSession(g.getProvider(st.provider).value, st.session).Ok?
              && CheckCallbackState(g.authURL(g.unmarshalSession(g.getProvider(st.provider).value, st.session).value),
                                    QueryGet(r, "state"), g.parseQuery)
  {
    match g.getProvider(st.provider)
    case Fail(e) => Fail(Forge(ep, CausedBy(InvalidCallback(ep), Some(e))))
    case Ok(p) =>
      match g.unmarshalSession(p, st.session)
      case Fail(e) => Fail(Forge(ep, CausedBy(InvalidCallback(ep), Some(e))))
      case Ok(sess) =>
        if !CheckCallbackState(g.authURL(sess), QueryGet(r, "state"), g.parseQuery) then
          Fail(Forge(ep, Hintf(InvalidCallback(ep), "state value mismatch")))
        else match g.authorize(p, sess, r.query)
          case Fail(e) => Fail(SCause(ep, InternalIssue, e))
          case Ok(authed) =>
            match g.fetchUser(p, authed)
            case Fail(e) => Fail(SCause(ep, InternalIssue, e))
            case Ok(gu) => Ok(gu)
  }

  /** A callback refused for its provider, its session blob or its state is
      an `invalid_callback` and never reaches the provider's authorisation
      or profile fetch: any other behaviour of those gives the same result. */
  lemma {:induction false} HandshakeStopsEarly(ep: Pkg, st: FlowState, r: Request, g: Goth,
                            authorize: (string, string, map<string, string>) -> Result<string>,
                            fetchUser: (string, string) -> Result<GothUser>)
    requires g.getProvider(st.provider).Fail?
             || g.unmarshalSession(g.getProvider(st.provider).value, st.session).Fail?
             || !CheckCallbackState(g.authURL(g.unmarshalSession(g.getProvider(st.provider).value, st.session).value),
                                    QueryGet(r, "state"), g.parseQuery)
    ensures Handshake(ep, st, r, g) == Handshake(ep, st, r, g.(authorize := authorize, fetchUser := fetchUser))
    ensures Handshake(ep, st, r, g).Fail? && Handshake(ep, st, r, g).err.Forge?
            && Handshake(ep, st, r, g).err.e.code == "invalid_callback"
  {
  }

  /** `userDataFromGothUser`. */
  function GothUserData(gu: GothUser): (d: map<string, Value>)
    ensures d.Keys == {"name", "picture", "location", "nick_name"}
    ensures d["name"] == Str(gu.name) && d["picture"] == Str(gu.avatarURL)
    ensures d["location"] == Str(gu.location) && d["nick_name"] == Str(gu.nickName)
  {
    map["name" := Str(gu.name), "picture" := Str(gu.avatarURL), "location" := Str(gu.location), "nick_name" := Str(gu.nickName)]
  }

  /** The login key a provider profile registers: provider "/" user id,
      with the provider's tokens as attributes. */
  function GothLoginKey(gu: GothUser): (k: Key)
    ensures '/' in k.key && k.key == NewAuthKey(gu.provider, gu.userID)
    ensures k.attribs.Keys == {"user_id", "expires_at", "access_token", "refresh_token", "raw_data"}
    ensures k.attribs["expires_at"] == Num(Unix(gu.expiresAt)) && k.attribs["raw_data"] == Obj(gu.rawData)
  {
    Key(NewAuthKey(gu.provider, gu.userID),
        map["user_id" := Str(gu.userID), "expires_at" := Num(Unix(gu.expiresAt)),
            "access_token" := Str(gu.accessToken), "refresh_token" := Str(gu.refreshToken),
            "raw_data" := Obj(gu.rawData)])
  }

  /** The user a first OAuth2 login registers: a new user of the flow's
      kind with a generated username, the profile's e-mail address and its
      profile data. */
  function GothNewUser(st: FlowState, gu: GothUser, now: Time,
                       digitDraws: seq<int>, tokenDraws: seq<int>, idDraws: seq<int>): (u: User)
    requires NewUserDraws("", digitDraws, tokenDraws, idDraws)
    ensures u.email == gu.email && u.data == GothUserData(gu)
    ensures u.kind == if TrimSpace(st.userKind) == "" then DefaultUserKind else TrimSpace(st.userKind)
  {
    NewUser(st.userKind, "", gu.email, now, digitDraws, tokenDraws, idDraws).(data := GothUserData(gu))
  }

  /** What the callback does after looking the login key up. */
  datatype Resolution = Existing(user: User) | Register | Abort(err: Err)

  /** The lookup test of `processCallback`: a found user is taken as it is;
      an error matching `NotFound` means a first login; any other error
      stops the callback as an internal issue. */
  function CallbackLookup(ep: Pkg, found: Result<User>): (d: Resolution)
    ensures found.Ok? ==> d == Existing(found.value)
    ensures found.Fail? ==> (d.Register? <==> Is(found.err, S(ep, NotFound)))
    ensures d.Abort? ==> d.err == SCause(ep, InternalIssue, found.err)
  {
    match found
    case Ok(u) => Existing(u)
    case Fail(e) => if Is(e, S(ep, NotFound)) then Register else Abort(SCause(ep, InternalIssue, e))
  }

  /** How the callback passes on a registration failure: a `Conflict` is
      kept, anything else becomes an internal issue. */
  function CallbackRegistrationError(ep: Pkg, e: Err): (r: Err)
    ensures AnyIs(e, [S(ep, Conflict)]) ==> r == e
    ensures !AnyIs(e, [S(ep, Conflict)]) ==> r == SCause(ep, InternalIssue, e)
    ensures Is(r, S(ep, Conflict)) || Is(r, S(ep, InternalIssue))
  {
    AnyIsOne(e, S(ep, Conflict));
    if Is(e, S(ep, Conflict)) then e else SCause(ep, InternalIssue, e)
  }

  /** Which store statement of the callback fails: the lookup, or one of
      the registration's. */
  datatype CallbackFaults = CallbackFaults(lookup: Option<Foreign>, register: TxFaults)

  /** How the callback ends once the profile is fetched, given what the
      lookup of its login key `found`: `users0`/`keys0` are the tables
      before, `users1`/`keys1` after. A found user is returned and nothing
      changes; on a first login the new user is registered with exactly the
      profile's login key, or nothing changes and the registration error is
      returned. */
  predicate Resolved(ep: Pkg, st: FlowState, gu: GothUser, found: Result<User>, now: Time,
                     enabledKinds: seq<string>, valid: string -> bool,
                     digitDraws: seq<int>, tokenDraws: seq<int>, idDraws: seq<int>, faults: TxFaults,
                     users0: map<string, User>, keys0: map<string, KeyRow>,
                     users1: map<string, User>, keys1: map<string, KeyRow>, res: Result<User>)
    requires NewUserDraws("", digitDraws, tokenDraws, idDraws)
  {
    var lk := GothLoginKey(gu);
    match CallbackLookup(ep, found)
    case Existing(u) => res == Ok(u) && users1 == users0 && keys1 == keys0
    case Abort(e) => res == Fail(e) && users1 == users0 && keys1 == keys0
    case Register =>
      FirstLogin(ep, st, gu, now, enabledKinds, valid, digitDraws, tokenDraws, idDraws, faults,
                 users0, keys0, users1, keys1, res)
  }

  /** A first OAuth2 login: the new user is registered with exactly the
      profile's login key, or nothing changes and the registration error is
      returned. */
  predicate FirstLogin(ep: Pkg, st: FlowState, gu: GothUser, now: Time,
                       enabledKinds: seq<string>, valid: string -> bool,
                       digitDraws: seq<int>, tokenDraws: seq<int>, idDraws: seq<int>, faults: TxFaults,
                       users0: map<string, User>, keys0: map<string, KeyRow>,
                       users1: map<string, User>, keys1: map<string, KeyRow>, res: Result<User>)
    requires NewUserDraws("", digitDraws, tokenDraws, idDraws)
  {
    var lk := GothLoginKey(gu);
    var v := Stamped(GothNewUser(st, gu, now, digitDraws, tokenDraws, idDraws), now);
    var f := RegisterFailure(users0, keys0, v, [lk], enabledKinds, valid, faults);
    (f.Some? ==> res == Fail(CallbackRegistrationError(ep, f.value)) && users1 == users0 && keys1 == keys0)
    && (f.None? ==> res == Ok(v) && users1 == users0[v.id := v] && keys1 == keys0[lk.key := KeyRow(v.id, lk.attribs)])
  }

  /** The registration branch of `processCallback`. */
  method RegisterFirstLogin(store: Store, ep: Pkg, st: FlowState, gu: GothUser, now: Time,
                            enabledKinds: seq<string>, valid: string -> bool,
                            digitDraws: seq<int>, tokenDraws: seq<int>, idDraws: seq<int>, faults: TxFaults)
    returns (res: Result<User>)
    requires store.Valid()
    requires NewUserDraws("", digitDraws, tokenDraws, idDraws)
    modifies store
    ensures store.Valid()
    ensures FirstLogin(ep, st, gu, now, enabledKinds, valid, digitDraws, tokenDraws, idDraws, faults,
                       old(store.users), old(store.keys), store.users, store.keys, res)
  {
    var lk := GothLoginKey(gu);
    var newU := NewUser(st.userKind, "", gu.email, now, digitDraws, tokenDraws, idDraws);
    newU := newU.(data := GothUserData(gu));
    assert newU == GothNewUser(st, gu, now, digitDraws, tokenDraws, idDraws);
    KeyRowsSingle(store.keys, Stamped(newU, now).id, lk);
    var reg := store.RegisterUser(newU, [lk], enabledKinds, now, valid, faults);
    if reg.Fail? {
      var conflict := OneOf(reg.err, [S(ep, Conflict)]);
      AnyIsOne(reg.err, S(ep, Conflict));
      if !conflict {
        return Fail(SCause(ep, InternalIssue, reg.err));
      }
      return Fail(reg.err);
    }
    res := Ok(reg.value);
  }

  /** The second half of `processCallback`: look the profile's login key
      up, and register a new user on a first login. */
  method ResolveCallbackUser(store: Store, ep: Pkg, st: FlowState, gu: GothUser, now: Time,
                             enabledKinds: seq<string>, valid: string -> bool,
                             digitDraws: seq<int>, tokenDraws: seq<int>, idDraws: seq<int>, faults: CallbackFaults)
    returns (res: Result<User>)
    requires store.Valid()
    requires NewUserDraws("", digitDraws, tokenDraws, idDraws)
    modifies store
    ensures store.Valid()
    ensures Resolved(ep, st, gu,
                     if faults.lookup.Some? then Fail(Translate(Foreign(faults.lookup.value)))
                     else old(store.Lookup(GothLoginKey(gu).key)),
                     now, enabledKinds, valid, digitDraws, tokenDraws, idDraws, faults.register,
                     old(store.users), old(store.keys), store.users, store.keys, res)
  {
    var lk := GothLoginKey(gu);
    var found := store.GetUser(lk.key, faults.lookup);
    match CallbackLookup(ep, found)
    case Existing(u) =>
      res := Ok(u);
    case Abort(e) =>
      res := Fail(e);
    case Register =>
      res := RegisterFirstLogin(store, ep, st, gu, now, enabledKinds, valid, digitDraws, tokenDraws, idDraws,
                                faults.register);
  }

  /** `processCallback`. The flow cookie is always cleared; a callback
      without a flow state or refused by the handshake leaves the store
      unchanged; otherwise the user is resolved as `Resolved` says. */
  method ProcessCallback(store: Store, w: ResponseWriter, ep: Pkg, r: Request, now: Time, codec: CookieCodec<FlowState>,
                         g: Goth, enabledKinds: seq<string>, valid: string -> bool,
                         digitDraws: seq<int>, tokenDraws: seq<int>, idDraws: seq<int>, faults: CallbackFaults)
    returns (res: Result<User>)
    requires store.Valid()
    requires NewUserDraws("", digitDraws, tokenDraws, idDraws)
    modifies store, w
    ensures store.Valid()
    ensures w.setCookies == old(w.setCookies) + [FlowStateCookie(None, now, codec)]
    ensures PoppedState(r, codec).None? ==>
              res == Fail(Forge(ep, Hintf(InvalidCallback(ep), "oauth2 flow state is nil")))
              && store.users == old(store.users) && store.keys == old(store.keys)
    ensures PoppedState(r, codec).Some? && Handshake(ep, PoppedState(r, codec).value, r, g).Fail? ==>
              res == Fail(Handshake(ep, PoppedState(r, codec).value, r, g).err)
              && store.users == old(store.users) && store.keys == old(store.keys)
    ensures PoppedState(r, codec).Some? && Handshake(ep, PoppedState(r, codec).value, r, g).Ok? ==>
              var gu := Handshake(ep, PoppedState(r, codec).value, r, g).value;
              Resolved(ep, PoppedState(r, codec).value, gu,
                       if faults.lookup.Some? then Fail(Translate(Foreign(faults.lookup.value)))
                       else old(store.Lookup(GothLoginKey(gu).key)),
                       now, enabledKinds, valid, digitDraws, tokenDraws, idDraws, faults.register,
                       old(store.users), old(store.keys), store.users, store.keys, res)
  {
    var st := PopOAuthState(w, r, now, codec);
    if st.None? {
      return Fail(Forge(ep, Hintf(InvalidCallback(ep), "oauth2 flow state is nil")));
    }
    var hs := Handshake(ep, st.value, r, g);
    if hs.Fail? {
      return Fail(hs.err);
    }
    res := ResolveCallbackUser(store, ep, st.value, hs.value, now, enabledKinds, valid,
                               digitDraws, tokenDraws, idDraws, faults);
  }

  // --------------------------------------------------------------- verify

  /** `handleVerify`'s error mapping: an error matching `NotFound` becomes
      the plain `MissingAuth` sentinel. */
  function VerifyError(ep: Pkg, e: Err): (r: Err)
    ensures Is(e, S(ep, NotFound)) ==> r == S(ep, MissingAuth)
    ensures !Is(e, S(ep, NotFound)) ==> r == e
    ensures !Is(r, S(ep, NotFound))
  {
    if Is(e, S(ep, NotFound)) then S(ep, MissingAuth) else e
  }

  /** `handleVerify`: verifies the user named by the "id" and "token" query
      parameters; `fault` and `readFault` are failures of the store's update
      and of its read-back. */
  method HandleVerify(store: Store, ep: Pkg, r: Request, now: Time, fault: Option<Foreign>, readFault: Option<Foreign>)
    returns (res: Result<User>)
    requires store.Valid()
    modifies store
    ensures store.Valid() && store.keys == old(store.keys)
    ensures fault.Some? ==> res == Fail(VerifyError(ep, Translate(Foreign(fault.value)))) && store.users == old(store.users)
    ensures fault.None? && !old(store.Verifies(QueryGet(r, "id"), QueryGet(r, "token"))) ==>
              res == Fail(VerifyError(ep, S(PkgPkg, NotFound))) && store.users == old(store.users)
    ensures fault.None? && old(store.Verifies(QueryGet(r, "id"), QueryGet(r, "token"))) ==>
              var id := QueryGet(r, "id");
              store.users == old(store.users)[id := old(store.users)[id].(verifiedAt := Some(now), updatedAt := now, verifyToken := None)]
              && res == if readFault.Some? then Fail(VerifyError(ep, Translate(Foreign(readFault.value)))) else Ok(store.users[id])
  {
    var id := QueryGet(r, "id");
    var token := QueryGet(r, "token");
    var u := store.VerifyUser(id, token, now, fault, readFault);
    if u.Fail? {
      return Fail(VerifyError(ep, u.err));
    }
    res := u;
  }

  // -------------------------------------------------------------- who am I

  /** `handleWhoAmI`'s error mapping: `NotFound` becomes `MissingAuth`,
      anything else an internal issue caused by it. */
  function WhoAmIError(ep: Pkg, e: Err): (r: Err)
    ensures Is(e, S(ep, NotFound)) ==> r == S(ep, MissingAuth)
    ensures !Is(e, S(ep, NotFound)) ==> r == SCause(ep, InternalIssue, e)
    ensures !Is(r, S(ep, NotFound)) && (Is(r, S(ep, MissingAuth)) || Is(r, S(ep, InternalIssue)))
  {
    if Is(e, S(ep, NotFound)) then S(ep, MissingAuth) else SCause(ep, InternalIssue, e)
  }

  /** `handleWhoAmI`: without a session, `MissingAuth`; otherwise the
      redacted record of the session's user. */
  method HandleWhoAmI(store: Store, ep: Pkg, session: Option<AuthSession.Session>, fault: Option<Foreign>)
    returns (r: Result<User>)
    requires store.Valid()
    ensures session.None? ==> r == Fail(S(ep, MissingAuth))
    ensures session.Some? && fault.Some? ==> r == Fail(WhoAmIError(ep, Translate(Foreign(fault.value))))
    ensures session.Some? && fault.None? && session.value.userID in store.users ==>
              r == Ok(Cloned(store.users[session.value.userID], true))
    ensures session.Some? && fault.None? && session.value.userID !in store.users ==>
              r == Fail(WhoAmIError(ep, NoRowsErr()))
  {
    if session.None? {
      return Fail(S(ep, MissingAuth));
    }
    store.LookupById(session.value.userID);
    var found := store.GetUser(NewAuthKey(KeyKindID, session.value.userID), fault);
    if found.Fail? {
      return Fail(WhoAmIError(ep, found.err));
    }
    var u := Identity.Clone(found.value, true);
    r := Ok(u);
  }

  // ------------------------------------------- the errors package mismatch

  /** As written, logging in as an unknown user returns the store's
      `not_found` error (404) instead of `MissingAuth`. */
  lemma {:induction false} UnknownUserLogin(c: Creds, matches: (string, string) -> bool)
    ensures LoginDecision(CorePkg, c, Fail(NoRowsErr()), matches) == Fail(NoRowsErr())
    ensures !Is(NoRowsErr(), S(CorePkg, MissingAuth)) && NoRowsErr().e.status == 404
  {
    NoRowsIsNotCoreNotFound();
  }

  /** Corrected: with pkg/errors sentinels, a login whose key matches no
      stored user is refused as "user not found", a `MissingAuth`. */
  lemma {:induction false} UnknownUserDenied(store: Store, c: Creds, matches: (string, string) -> bool)
    requires store.Valid()
    requires store.Lookup(LoginKey(c)).Fail?
    ensures LoginDecision(PkgPkg, c, store.Lookup(LoginKey(c)), matches) == Fail(SHint(PkgPkg, MissingAuth, "user not found"))
    ensures Is(LoginDecision(PkgPkg, c, store.Lookup(LoginKey(c)), matches).err, S(PkgPkg, MissingAuth))
  {
    store.LookupSpec(LoginKey(c));
    IsSamePackage(PkgPkg, NoRowsErr().e, Sentinel(PkgPkg, NotFound));
    CopiesStillMatch(PkgPkg, Sentinel(PkgPkg, MissingAuth), "user not found", None);
  }

  /** As written, a failing user query (a pkg/errors internal issue, status
      500) matches the core `NotFound` sentinel, so the login reports "user
      not found"; with pkg/errors sentinels the internal issue is passed on. */
  lemma {:induction false} LoginQueryFault(c: Creds, matches: (string, string) -> bool, text: string)
    ensures LoginDecision(CorePkg, c, Fail(Translate(Foreign(Opaque(text)))), matches)
            == Fail(SHint(CorePkg, MissingAuth, "user not found"))
    ensures LoginDecision(PkgPkg, c, Fail(Translate(Foreign(Opaque(text)))), matches)
            == Fail(Translate(Foreign(Opaque(text))))
  {
    TranslateMatches(Foreign(Opaque(text)));
  }

  /** As written, a duplicate registration (a pkg/errors `Conflict`) is
      turned into an internal issue. */
  lemma {:induction false} DuplicateRegistration()
    ensures var clash := Translate(Foreign(UniqueViolationErr));
            RegisterError(CorePkg, clash) == SCause(CorePkg, InternalIssue, clash)
  {
    var clash := Translate(Foreign(UniqueViolationErr));
    CrossPackageMismatch(clash.e, Conflict);
    CrossPackageMismatch(clash.e, InvalidInput);
  }

  /** Corrected: with pkg/errors sentinels, any unique violation the store
      reports is passed on as the `Conflict` it is. */
  lemma {:induction false} DuplicateRegistrationConflict(e: Err)
    requires e.Foreign? && e.f.PgError? && e.f.code == UniqueViolation
    ensures RegisterError(PkgPkg, Translate(e)) == Translate(e)
    ensures Is(RegisterError(PkgPkg, Translate(e)), S(PkgPkg, Conflict))
  {
    TranslateMatches(e);
  }

  /** Whatever the errors package, a user that fails validation or has a
      disabled kind is reported as an internal issue: both errors are
      re-coded, so neither matches the `InvalidInput` sentinel. */
  lemma {:induction false} RejectedRegistrationIsInternal(ep: Pkg, u: User, valid: string -> bool, kind: string)
    requires Validate(u, valid).Some?
    ensures RegisterError(ep, Validate(u, valid).value) == SCause(ep, InternalIssue, Validate(u, valid).value)
    ensures RegisterError(ep, InvalidKind(kind)) == SCause(ep, InternalIssue, InvalidKind(kind))
  {
    var e := Validate(u, valid).value;
    ValidateFailureIsRecoded(u, valid);
  }

  /** As written, the first OAuth2 login of a user aborts with an internal
      issue, because the store's `not_found` does not match core `NotFound`. */
  lemma {:induction false} FirstOAuthLogin()
    ensures CallbackLookup(CorePkg, Fail(NoRowsErr())) == Abort(SCause(CorePkg, InternalIssue, NoRowsErr()))
  {
    NoRowsIsNotCoreNotFound();
  }

  /** Corrected: with pkg/errors sentinels, a provider account whose login
      key matches no stored user leads to its registration. */
  lemma {:induction false} FirstOAuthLoginRegisters(store: Store, gu: GothUser)
    requires store.Valid()
    requires store.Lookup(GothLoginKey(gu).key).Fail?
    ensures CallbackLookup(PkgPkg, store.Lookup(GothLoginKey(gu).key)) == Register
  {
    store.LookupSpec(GothLoginKey(gu).key);
    IsSamePackage(PkgPkg, NoRowsErr().e, Sentinel(PkgPkg, NotFound));
  }

  /** As written, a failing lookup in the callback counts as "no such user"
      and the callback goes on to register one; with pkg/errors sentinels
      it aborts. */
  lemma {:induction false} CallbackLookupFault(text: string)
    ensures CallbackLookup(CorePkg, Fail(Translate(Foreign(Opaque(text))))) == Register
    ensures CallbackLookup(PkgPkg, Fail(Translate(Foreign(Opaque(text))))).Abort?
  {
    TranslateMatches(Foreign(Opaque(text)));
  }

  /** As written, a second account claiming an existing e-mail address or
      login key in the callback is an internal issue rather than a
      `Conflict`. */
  lemma {:induction false} CallbackConflict()
    ensures var clash := Translate(Foreign(UniqueViolationErr));
            CallbackRegistrationError(CorePkg, clash) == SCause(CorePkg, InternalIssue, clash)
            && CallbackRegistrationError(PkgPkg, clash) == clash
  {
    var clash := Translate(Foreign(UniqueViolationErr));
    TranslateMatches(Foreign(UniqueViolationErr));
    CrossPackageMismatch(clash.e, Conflict);
  }

  /** As written, reusing a verify token (zero rows updated, a pkg/errors
      `NotFound`) answers 404 instead of `MissingAuth`. */
  lemma {:induction false} VerifyTokenReuse()
    ensures VerifyError(CorePkg, S(PkgPkg, NotFound)) == S(PkgPkg, NotFound)
    ensures VerifyError(PkgPkg, S(PkgPkg, NotFound)) == S(PkgPkg, MissingAuth)
  {
    CrossPackageMismatch(Sentinel(PkgPkg, NotFound), NotFound);
  }

  /** As written, asking who-am-I for a session whose user no longer exists
      is an internal issue; with pkg/errors sentinels it is `MissingAuth`. */
  lemma {:induction false} WhoAmIVanishedUser()
    ensures WhoAmIError(CorePkg, NoRowsErr()) == SCause(CorePkg, InternalIssue, NoRowsErr())
    ensures WhoAmIError(PkgPkg, NoRowsErr()) == S(PkgPkg, MissingAuth)
  {
    NoRowsIsNotCoreNotFound();
  }
}
