# forge authentication and identity, modelled in Dafny

This project models the authentication and identity core of forge, a Go
application kit. The model covers:

- the user record, its validation, password gate, redacting clone and
  new-user defaults, and the `"<kind>/<value>"` login-key codec;
- the user store of the `auth` module, as two tables (`users` and
  `user_keys`) that a class updates in place, with all-or-nothing
  registration and a one-shot e-mail verification;
- the two session-token issuers of the `auth` module and of
  `builtin/pgbase`, plus the stateless `builtin/jwtauth`. These are HS512
  JSON Web Tokens, and their claim checks never consult the clock;
- the OAuth2 login flow: the flow-state cookie, the CSRF check of the
  callback `state` (section 10.12 of RFC 6749) and the callback's user
  resolution;
- the HTTP handlers' decisions for register, login, verify and who-am-I;
- the request gates: bearer-token extraction (section 2.1 of RFC 6750)
  with a cookie fallback, and the 401/500 answers of the router, forge
  and gin middlewares;
- the two error packages: value-copy builders, attribute merge, message
  format, sentinel tables and the code-sensitive `Is`;
- the Firebase ID-token verifier (RS256, issuer, user mapping) and its
  public-key cache, which is refreshed by max-age (section 5.2.2.1 of
  RFC 9111);
- small utilities: `SnakeCase`, `RandStr`, `OneOf` and the Gravatar URL.

auth/user.go, core/user.go and core/user_key.go hold the same identity
code twice; it is defined once, in `Identity`, and the table cites the
auth/ copy. The router's `extractToken` (core/router/mws.go:102-114) is
the same code as auth/utils.go:20-32, so it is modelled once, as
`AuthUtils.ExtractToken`. ginapp's `extractToken`
(ginapp/ginapp.go:72-84) is the same code as core/forge/mws.go:86-98, so
it is `Gates.ForgeExtractToken`.

Some calls are foreign to the model: bcrypt, JWT serialisation and
signatures, JSON, base64, PEM and RSA, `net/mail`, `net/url`, md5, goth's
providers and the key endpoint. Each becomes a function parameter. Where
a property needs one of them to behave, a ghost predicate states what is
assumed of it: `BcryptSound`, `JwtSound`, `CodecSound`, `GothSound`, or
`EmailTestFacts`, which holds the `IsValidEmail` cases of the upstream
tests. The clock is a parameter `now`. Randomness is the sequence of
indices that `rand.Intn` would return. Database failures are inputs that
name the failing statement.

Errors are values of `Err`, which has two kinds:

- `Forge(pkg, e)`: an `Error` declared by core/errors (`CorePkg`) or by
  pkg/errors (`PkgPkg`);
- `Foreign(f)`: an error of a foreign type.

Keeping the package matters. `Error.Is` compares against an `Error` of
its own type only; any other target matches exactly when the status is
500. The handlers and the router test with core/errors sentinels, while
the store and its error translation produce pkg/errors values. See
"## Findings".

## Model

| member | source | states |
|---|---|---|
| Errors.MergeAllKeys | core/errors/error.go:69-80 | the merged map's keys are exactly those of the base and of every input map |
| Errors.MergeAllLast | core/errors/error.go:69-80 | a key takes its value from the last input map that holds it, because later copies overwrite earlier ones |
| Errors.MergeAllBase | core/errors/error.go:69-80 | a key that no input map holds keeps its value from the base |
| Errors.MergeAllLookup | core/errors/error.go:69-80 | a key is in the merge iff some input map has it; the last map holding it decides its value, and a key found only in the base keeps the base's value |
| Errors.CopyEntries | core/errors/error.go:71-77 | one copy loop over a map writes all of its entries over the destination: the result is the destination overridden by the map |
| Errors.CloneMerge | core/errors/error.go:69-80 | the nested copy loops build exactly the merge of the base and the maps in order |
| Errors.Clone | core/errors/error.go:63-67 | the copy keeps code, cause, status and hint and carries the merged attributes |
| Errors.Coded | core/errors/error.go:17-21 | the copy differs only in its code and in its merged attribute map |
| Errors.CausedBy | core/errors/error.go:24-28 | the copy differs only in its cause |
| Errors.Hintf | core/errors/error.go:31-35 | the copy differs only in its debug hint |
| Errors.Message | core/errors/error.go:38-47 | the text always starts with the code |
| Errors.MessageShapes | core/errors/error.go:38-47 | the text is the code, then ": cause" when a cause is set, then ": hint" when the hint is non-empty, for all four shapes |
| Errors.IsSamePackage | core/errors/error.go:51-57 | against an `Error` of its own type, `Is` holds iff the target's code is empty or equal and the statuses are equal |
| Errors.IsOtherTarget | core/errors/error.go:51-61 | against any other target, `Is` holds iff the status is 500 |
| Errors.RecodedDoesNotMatchBase | core/errors/error.go:17-21 | a sentinel re-coded with a different code no longer matches that sentinel |
| Errors.CopiesStillMatch | core/errors/error.go:24-35 | `Hintf` and `CausedBy` copies still match the error they were made from |
| Sentinels.ErrToken | builtin/jwtauth/jwtauth.go:62 | a refused token is reported with code "invalid_token" and the missing-auth status 401 |
| Sentinels.TablesAgree | pkg/errors/errors.go:16-25 | the two sentinel tables are equal; codes are non-empty, and codes and statuses are pairwise distinct |
| Sentinels.SentinelMatchesOnlyItself | core/errors/errors.go:16-63 | under `Is`, a sentinel matches exactly itself among the sentinels of its package |
| Sentinels.E | core/errors/errors.go:67-72 | an `Error` of the package's own type is returned unchanged; anything else becomes `internal_issue`/500 caused by it |
| Sentinels.OneOf | core/errors/errors.go:75-82 | the in-order scan answers true iff some candidate matches under `Is` (so an empty list gives false) |
| Sentinels.AnyIsOne | core/errors/errors.go:75-82 | `OneOf` over one candidate is `Is` against it |
| Sentinels.AnyIsTwo | pkg/errors/errors.go:37-44 | `OneOf` over two candidates is the disjunction of the two `Is` tests |
| Sentinels.AnyIsThree | core/errors/errors.go:75-82 | `OneOf` over three candidates is the disjunction of the three `Is` tests |
| Sentinels.RecodedMatchesNoSentinel | core/errors/error.go:51-57 | a sentinel re-coded with a code of no sentinel matches none of them, whatever its hint |
| Sentinels.CrossPackageMismatch | core/errors/error.go:51-61 | an `Error` of one package matches a sentinel of the other iff its status is 500 |
| StrUtils.Ptr | pkg/strutils/strings.go:6 | the pointer is present and holds a value equal to the argument |
| StrUtils.OneOf | pkg/strutils/strings.go:8-15 | the scan answers true iff the item equals some element exactly |
| StrUtils.SnakeCase | pkg/strutils/strings.go:18-31 | the appending loop computes, character by character, the conversion: lower-case each capital and insert "_" before a capital that is not first and follows neither a space nor a capital |
| StrUtils.SnakePrefixShape | pkg/strutils/strings.go:18-31 | every prefix of the output has no capital letter and is as long as the input prefix plus the underscores inserted in it |
| StrUtils.SnakePrefixNoUpper | pkg/strutils/strings.go:22-27 | input without capitals is copied unchanged |
| StrUtils.SnakeCaseIdempotent | pkg/strutils/strings.go:18-31 | the output has no capitals, its length is the input's plus the inserted underscores, and converting it again changes nothing |
| StrUtils.SnakeCaseAllCaps | core/strutils/strings_test.go:17 | "ABCD" becomes "abcd" |
| StrUtils.SnakeCaseTrailingCap | core/strutils/strings_test.go:18 | "AbcD" becomes "abc_d" |
| StrUtils.SnakeCaseCamel | core/strutils/strings_test.go:19 | "helloWorld" becomes "hello_world" |
| StrUtils.SnakeCaseAcronym | core/strutils/strings_test.go:20 | "UseHTTPS" becomes "use_https" |
| StrUtils.RandStrOf | pkg/strutils/randstr.go:15-29 | the string has exactly n characters, each from the effective character set |
| StrUtils.RandStr | pkg/strutils/randstr.go:15-29 | the charset-joining loop and the buffer-filling loop build exactly that string from the draws |
| StrUtils.DefaultCharsetIsAlnum | pkg/strutils/randstr.go:7-11 | the default character set holds only letters and digits |
| StrUtils.DefaultCharsetAlnum | pkg/strutils/randstr.go:15-29 | with no character set given, every character is a letter or a digit |
| StrUtils.DigitsCharset | pkg/strutils/randstr.go:15-29 | with the digits as the only character set, every character is a digit |
| StrUtils.SingleCharset | pkg/strutils/randstr_test.go:19-22 | with the character set "a", ten draws give "aaaaaaaaaa" whatever they are |
| Email.GravatarSize | core/strutils/email.go:13-15 | the size used is in 1..2047; a size in range is kept and any other becomes 128 |
| Email.GravatarURL | core/strutils/email.go:12-22 | every URL starts with the Gravatar base and ends with the clamped size query; the trimmed address decides: an invalid one gives the generic avatar, a valid one the avatar of its md5 hex digest |
| Email.GravatarIgnoresSpace | core/strutils/email.go:16-21 | surrounding white space does not change the URL |
| Email.SizeQueries | core/strutils/email.go:13-21 | sizes 128 and 64 are kept, and 0 becomes 128 |
| Email.GravatarExamples | core/strutils/email_test.go:37-41 | "bob@bobmail.com" at sizes 128 and 64 gives the hashed URL with that size |
| Email.GravatarFallbackExample | core/strutils/email_test.go:23 | "foo", which the tests call invalid, gives the generic avatar at size 128 |
| Identity.Validate | auth/user.go:67-82 | succeeds iff the id is alphanumeric, the username matches its pattern and the e-mail is valid; otherwise the first failing check, in that order, names the `invalid_user` error |
| Identity.ValidateFailureIsRecoded | auth/user.go:67-82 | every failure has code `invalid_user` and status 400, and so does not match `InvalidInput` |
| Identity.HashPassword | auth/user.go:85-96 | hashing succeeds exactly when the password has at least 8 bytes and the hasher succeeds; a short password is refused with an error matching `InvalidInput` before hashing, and a hasher failure matches `InternalIssue` |
| Identity.HashPasswordGate | auth/user.go:160-163 | the refusal does not depend on the hasher, and a hash is only ever produced for a strong password |
| Identity.CheckPassword | auth/user.go:101-107 | false without a hash; true only when bcrypt accepts the password against the hash |
| Identity.HashThenCheck | auth/user.go:85-107 | a hash `HashPassword` returns checks against its own password |
| Identity.Cloned | auth/user.go:110-131 | the clone keeps identity, e-mail, times and data, never kind or attributes, and drops the hash and verify token exactly when safe |
| Identity.Clone | auth/user.go:110-131 | the data-copying loop builds exactly that clone |
| Identity.CloneKeepsIdentity | auth/user.go:110-131 | a clone validates as the original does; a safe clone of a safe clone is the same, and an unsafe clone changes nothing further |
| Identity.GeneratedUsername | auth/user.go:140-142 | "user" followed by eight digits |
| Identity.NewUser | auth/user.go:134-158 | the kind is trimmed and defaults to "user"; the username is kept or generated; a 16-character id, a 10-character verify token, no hash or verification, equal creation and update times |
| Identity.NewUserValidates | auth/user.go:134-158 | a new user with a generated username validates iff its e-mail is valid |
| Identity.SanitizeAndValidate | auth/user.go:188-204 | succeeds iff an e-mail or a username is given and each one given passes its own check; the error names the first failure |
| Identity.NewAuthKey | auth/user.go:207-209 | the key is the kind, "/" and the value |
| Identity.SplitAuthKey | auth/user.go:212-215 | the kind holds no "/", and joining the two parts gives the key back |
| Identity.SplitNewAuthKey | auth/user.go:207-215 | a key built from a kind without "/" splits back into that kind and value, even when the value contains "/" |
| Identity.ValidateAuthKey | auth/user.go:218-230 | `invalid_kind` unless the kind matches `^[A-Za-z_]+$`, then `invalid_value` when the value has surrounding white space, otherwise success |
| Identity.ValidateAuthKeyAccepts | auth/user.go:218-230 | a built key is accepted iff its kind matches the pattern and its value is already trimmed |
| Identity.ValidateSession | core/session.go:17-27 | succeeds iff id and user id are set; the id is checked first; times are not looked at |
| Http.ResponseWriter.constructor | auth/oauth2.go:46 | a new writer has set no cookie |
| Http.ResponseWriter.SetCookie | auth/oauth2.go:46 | exactly one cookie is appended |
| Http.MarshalCookie | pkg/httpx/cookies.go:13-19 | the base64 text of the JSON encoding; a JSON failure is an internal issue caused by it |
| Http.UnmarshalCookie | pkg/httpx/cookies.go:23-35 | false for a missing or empty cookie; true with the target untouched for bad base64; otherwise true iff JSON decoding succeeds |
| Http.CookieRoundTrip | pkg/httpx/cookies.go:13-35 | a cookie holding what `MarshalCookie` produced unmarshals back to the value |
| AuthUtils.ExtractToken | auth/utils.go:20-32 | the trimmed rest of an exact "Bearer " header; otherwise the trimmed cookie, or "" without one |
| AuthUtils.ExtractTokenTrimmed | auth/utils.go:31 | the token never has surrounding white space |
| AuthUtils.BearerRoundTrip | auth/utils.go:20-32 | a trimmed token sent as "Bearer <token>" is extracted unchanged |
| AuthUtils.LowerCaseBearerFallsBack | auth/utils.go:22 | the prefix is case-sensitive: "bearer " falls back to the cookie |
| AuthUtils.Translate | auth/utils.go:39-54 | no-rows becomes `not_found`; a unique violation becomes `Conflict`; no-data becomes `NotFound`; anything else becomes an internal issue caused by it; always a pkg/errors value |
| AuthUtils.TranslateErr | auth/utils.go:34-55 | nil stays nil and anything else is translated |
| AuthUtils.TranslateMatches | auth/utils.go:34-55 | which pkg/errors sentinel each translated error matches |
| AuthUtils.NoRowsIsNotCoreNotFound | auth/utils.go:39-41 | the translated no-rows error does not match the core/errors `NotFound` |
| UserStore.NoRowsErr | auth/utils.go:39-41 | a lookup without a row fails with `NotFound` re-coded `not_found` |
| UserStore.KeyRowsShape | auth/auth_user.go:174-192 | the rows written hold exactly the given keys, each bound to the user; no keys write no rows |
| UserStore.KeyRowsSingle | auth/auth_user.go:180-189 | one key writes one row |
| UserStore.KeyRowsStep | auth/auth_user.go:180-189 | each loop step adds that key's row |
| UserStore.KeysFreshStep | auth/auth_user.go:180-189 | the keys stay insertable iff the next one is neither in the table nor already staged |
| UserStore.InsertLoginKeys | auth/auth_user.go:174-192 | the insert fails as the unique constraint or the transport dictates, and otherwise stages exactly the key rows |
| UserStore.Stamped | auth/auth_user.go:54-57 | both timestamps become `now`, verification is cleared, and nothing else changes |
| UserStore.RegisterFailureCases | auth/auth_user.go:53-86 | registration succeeds iff the stamped user validates, its kind is enabled, and no statement fails or breaks a constraint; validation and the kind are checked first |
| UserStore.Store.constructor | auth/auth_user.go:15-192 | the tables start empty and satisfy their constraints |
| UserStore.Store.MatchUnique | auth/auth_user.go:29-48 | at most one user matches a login key |
| UserStore.Store.LookupSpec | auth/auth_user.go:29-48 | a lookup finds a user iff one matches the key (by column for id/email/username, else through `user_keys`), and otherwise fails with `not_found` |
| UserStore.Store.LookupById | auth/auth_user.go:29-48 | looking up "id/<id>" finds exactly the stored user with that id |
| UserStore.Store.GetUser | auth/auth_user.go:15-51 | the scan returns the lookup's answer, or the translated transport error |
| UserStore.Store.RegisterUser | auth/auth_user.go:53-86 | either the user and all its keys are added, or, on any failure, neither table changes; the table constraints are kept |
| UserStore.Store.VerifyUser | auth/auth_user.go:88-113 | only a row matching both id and token changes: it is verified at `now` and its token is cleared; otherwise `NotFound` and nothing changes; a failure of the read-back comes after the row is already verified, so the change stays and the error is returned |
| UserStore.Store.SetPassword | auth/auth_user.go:115-134 | a weak password fails before any write; otherwise only the hash and update time of the row with that id change, and an unknown id succeeds silently |
| UserStore.Store.SetUserData | auth/auth_user.go:136-150 | only the data and update time of the row with that id change, and an unknown id succeeds silently |
| Jwt.ParseHmac | auth/auth_session.go:57-72 | a token parses iff it decodes, its algorithm is HMAC, the signature verifies under the key and the claims are valid; the result is its claims; a bad signature fails with "signature is invalid" even when the claims are also invalid, and a good signature with invalid claims fails with the claims' error |
| Jwt.SignThenParse | auth/auth_session.go:18-80 | a token signed with HS512 under a key parses back to its claims under that key |
| Jwt.NonHmacRejected | auth/auth_session.go:57-62 | a token of a non-HMAC algorithm never parses |
| AuthSession.ClaimsValid | auth/session.go:26-37 | valid iff the kind is set, iat < exp and the subject is set; the first failing check, in that order, names the error |
| AuthSession.ClaimsValidIgnoresIdAndClock | auth/session.go:26-37 | claims that expired long ago are still valid, and the session id is not looked at |
| AuthSession.CreateSession | auth/auth_session.go:18-45 | the session has an 8-character id, the user's id and kind, expiry now + TTL, and the token signing its claims |
| AuthSession.RestoreSession | auth/auth_session.go:49-81 | an empty trimmed token is refused; success iff the trimmed token parses; the session mirrors the claims; every failure is `MissingAuth` re-coded `invalid_token` |
| AuthSession.RestoreFailureKind | auth/auth_session.go:49-81 | a failed restore is never an internal issue and, being re-coded, does not match `MissingAuth` |
| AuthSession.SessionRoundTrip | auth/auth_session.go:18-81 | restoring a fresh session's token gives back its id, user id, kind and expiry |
| AuthSession.Authenticate | auth/auth_session.go:85-105 | no token: downstream runs with no session; a restore error stops the request; otherwise downstream runs with the restored session |
| AuthSession.AuthenticateRoundTrip | auth/auth_session.go:85-105 | a request carrying a created session's token as bearer proceeds with that user's session |
| PgBase.ClaimsValid | builtin/pgbase/claims.go:12-21 | valid iff iat < exp and the subject is set, checked in that order |
| PgBase.ClaimsValidIgnoresSidAndClock | builtin/pgbase/claims.go:12-21 | expired claims are still valid, and the session id is not looked at |
| PgBase.Config.constructor | builtin/pgbase/config.go:11-15 | the fields are the ones given |
| PgBase.Config.Sanitise | builtin/pgbase/config.go:17-31 | the spec is trimmed in place; an empty spec or a secret under 16 bytes fails; the TTL defaults to one hour only after both checks pass; success iff the config is sane |
| PgBase.IssueToken | builtin/pgbase/pgbase.go:68-93 | the session has an 8-character id, the user id, creation now and expiry now + TTL; a signing failure is an internal issue |
| PgBase.VerifyToken | builtin/pgbase/pgbase.go:95-126 | an empty trimmed token is refused; success iff it parses; id, user id and times come from the claims; every failure is `invalid_token`/401 |
| PgBase.IssueVerifyRoundTrip | builtin/pgbase/pgbase.go:68-126 | verifying an issued token gives back its session id and user id, and a session that passes `validate` |
| JwtAuth.New | builtin/jwtauth/jwtauth.go:16-27 | an empty secret fails with `InvalidInput`; otherwise the secret is kept and a non-positive TTL becomes one hour |
| JwtAuth.CreateSession | builtin/jwtauth/jwtauth.go:34-59 | the session has an 8-character id, the user id, creation now and expiry now + TTL, with its signed token |
| JwtAuth.RestoreSession | builtin/jwtauth/jwtauth.go:61-92 | an empty trimmed token is refused; success iff it parses; the session comes from the claims; every failure is `invalid_token`/401 |
| JwtAuth.CreateRestoreRoundTrip | builtin/jwtauth/jwtauth.go:16-92 | through an issuer made by `New`, restoring a created token gives back its session |
| AuthConfig.Config.constructor | auth/auth.go:63-74 | the fields are the ones given |
| AuthConfig.Config.Sanitise | auth/auth.go:82-108 | non-empty routes are joined; TTL and cookie get defaults; an empty secret fails after those writes; kinds default to ["user"] only when the secret is set; secret and providers never change; success iff the config is sane |
| OAuth2.FlowStateCookie | auth/oauth2.go:25-47 | without a state, an empty value expiring now; with one, its encoding expiring ten minutes from now |
| OAuth2.SetOAuthFlowState | auth/oauth2.go:25-47 | appends exactly that cookie |
| OAuth2.PoppedState | auth/oauth2.go:49-57 | nil iff `UnmarshalCookie` fails; a value that is not base64 gives the zero state |
| OAuth2.FlowStateRoundTrip | auth/oauth2.go:25-57 | the cookie written for a state pops that state |
| OAuth2.PopOAuthState | auth/oauth2.go:49-57 | returns the popped state and always clears the flow cookie |
| OAuth2.CheckCallbackState | auth/oauth2.go:59-71 | false when the auth URL is unavailable or unparsable; otherwise true iff its "state" equals the callback's |
| OAuth2.CallbackStateUnique | auth/oauth2.go:59-71 | at most one callback state passes, and a missing parameter passes a callback without one |
| Routes.LoginKey | auth/auth_routes.go:221-228 | the e-mail key when an e-mail is given, otherwise the username key |
| Routes.LoginDecision | auth/auth_routes.go:228-242 | success iff the user is found, the password checks, the e-mail (when given) and the kind equal; a lookup failure matching `NotFound` becomes `MissingAuth` "user not found"; password, e-mail and kind mismatches are `MissingAuth`; a lookup failure that does not match `NotFound` is passed on unchanged |
| Routes.DoLogin | auth/auth_routes.go:215-243 | bad credentials fail first; then the store's answer for the login key, decided as above |
| Routes.LoginFindsByEmail | auth/auth_routes.go:221-228 | the e-mail key finds the user holding that address |
| Routes.RegisteredUserLogsIn | auth/auth_routes.go:215-243 | a stored user logs in with its e-mail, its kind and a matching password |
| Routes.RegisterCandidate | auth/auth_routes.go:40-55 | an invalid e-mail is refused with `MissingAuth` before hashing; a weak password is refused; otherwise the new user with its hash |
| Routes.UsernameOnlyRegistrationFails | auth/auth_routes.go:44-45 | with an e-mail validator meeting `EmailTestFacts` (it rejects the empty address), registering without an e-mail always fails |
| Routes.RegisterError | auth/auth_routes.go:57-61 | a `Conflict` or `InvalidInput` is passed on; anything else becomes an internal issue |
| Routes.DoRegister | auth/auth_routes.go:40-64 | the store gains the candidate user, with no keys, exactly when the candidate and the registration succeed |
| Routes.RegisterWithoutKeys | auth/auth_routes.go:56-63 | a store failure is passed on as itself when it is a conflict or invalid input and as an internal issue otherwise, with the store unchanged; a success adds exactly the stamped user, no login keys, and returns its redacted clone |
| Routes.RegisterThenLogin | auth/auth_routes.go:40-243 | once the store holds a registered user, logging in with the same credentials returns it |
| Routes.RequestedKind | auth/auth_routes.go:77-81 | the "kind" parameter, or "user" when empty |
| Routes.PrepareRedirection | auth/auth_routes.go:75-108 | a disabled kind gives `invalid_kind` and an unknown provider `invalid_provider`; success carries the requested kind, the provider and a session begun with the 10-character state |
| Routes.RedirectStateChecks | auth/auth_routes.go:90-107 | the callback check passes exactly the state the redirect began with |
| Routes.Handshake | auth/auth_routes.go:124-151 | an unknown provider, a bad session blob or a state mismatch gives `invalid_callback`; authorisation or profile failures are internal issues |
| Routes.HandshakeStopsEarly | auth/auth_routes.go:129-142 | a callback refused by those checks never reaches authorisation or the profile fetch |
| Routes.GothUserData | auth/auth_routes.go:309-317 | the data holds exactly name, picture, location and nick name |
| Routes.GothLoginKey | auth/auth_routes.go:153-173 | the key is provider "/" user id, with the five attributes |
| Routes.GothNewUser | auth/auth_routes.go:159-162 | a new user of the flow's kind with the profile's e-mail and data |
| Routes.CallbackLookup | auth/auth_routes.go:153-159 | a found user is taken; a not-found error leads to registration; any other error aborts as an internal issue |
| Routes.CallbackRegistrationError | auth/auth_routes.go:176-180 | a `Conflict` is passed on and anything else becomes an internal issue |
| Routes.RegisterFirstLogin | auth/auth_routes.go:159-181 | the new user is registered with exactly its one login key, or the error is mapped |
| Routes.ResolveCallbackUser | auth/auth_routes.go:153-185 | an existing user is returned unchanged; otherwise the user is registered on first sight |
| Routes.ProcessCallback | auth/auth_routes.go:123-186 | the flow cookie is always cleared; a missing state or a failed handshake touches no table; otherwise the user is resolved |
| Routes.VerifyError | auth/auth_routes.go:203-206 | an error matching `NotFound` becomes `MissingAuth`; others pass unchanged; so the reply never matches `NotFound` |
| Routes.HandleVerify | auth/auth_routes.go:196-212 | verifies the user named by the "id" and "token" parameters, with the error mapped; a failed read-back still leaves the user verified |
| Routes.WhoAmIError | auth/auth_routes.go:261-266 | `NotFound` becomes `MissingAuth`; anything else becomes an internal issue; so the reply never matches `NotFound` and always matches `MissingAuth` or `InternalIssue` |
| Routes.HandleWhoAmI | auth/auth_routes.go:254-270 | no session gives `MissingAuth`; otherwise the session user's safe clone, or the mapped error |
| Routes.UnknownUserLogin | auth/auth_routes.go:229-233 | as written, an unknown user gets the store's 404 instead of `MissingAuth` |
| Routes.UnknownUserDenied | auth/auth_routes.go:228-233 | corrected: a login whose key matches no stored user is refused with `MissingAuth` "user not found" |
| Routes.LoginQueryFault | auth/auth_routes.go:229-233 | as written, a failing user query is reported as "user not found" |
| Routes.DuplicateRegistration | auth/auth_routes.go:56-61 | as written, a duplicate registration becomes an internal issue, not a `Conflict` |
| Routes.DuplicateRegistrationConflict | auth/auth_routes.go:56-61 | corrected: every unique violation the store reports is passed on as a `Conflict` |
| Routes.RejectedRegistrationIsInternal | auth/auth_routes.go:56-61 | a user failing validation or of a disabled kind is reported as an internal issue in either package |
| Routes.FirstOAuthLogin | auth/auth_routes.go:153-157 | as written, a user's first OAuth2 login aborts instead of registering |
| Routes.FirstOAuthLoginRegisters | auth/auth_routes.go:153-159 | corrected: a provider account whose login key matches no stored user leads to registration |
| Routes.CallbackLookupFault | auth/auth_routes.go:153-157 | as written, a failing lookup is taken for "no such user" |
| Routes.CallbackConflict | auth/auth_routes.go:175-180 | as written, a clash in the callback registration is an internal issue |
| Routes.VerifyTokenReuse | auth/auth_routes.go:202-206 | as written, reusing a verify token answers `NotFound` instead of `MissingAuth` |
| Routes.WhoAmIVanishedUser | auth/auth_routes.go:260-266 | as written, a session whose user is gone is an internal issue instead of `MissingAuth` |
| Gates.RouterAuthenticate | core/router/mws.go:58-83 | no token: next runs with the context untouched; a restored session is put in the context and nothing else changes; a failure matching the target is written as is, any other as an internal issue |
| Gates.RouterRoundTrip | core/router/mws.go:58-83 | with jwtauth, a created token passes the router with its session |
| Gates.RouterRejectedTokenIsInternal | core/router/mws.go:63-68 | as written, every token jwtauth rejects is answered with `internal_issue`/500 |
| Gates.RouterRejectedTokenIsUnauthorized | core/router/mws.go:63-68 | matched by status, a rejected token is answered with jwtauth's `invalid_token`/401 |
| Gates.ForgeExtractToken | core/forge/mws.go:86-98 | the untrimmed rest of an exact "Bearer " header; otherwise the trimmed "_forge_auth" cookie, or "" |
| Gates.ExtractTokenCopiesDiffer | ginapp/ginapp.go:72-84 | on a bearer header, the gin copies keep the raw remainder while auth/utils.go trims it, so "Bearer  " is a token for gin only |
| Gates.ExtractTokenCookieAgrees | ginapp/ginapp.go:77-83 | without a bearer header, both copies read the same trimmed cookie |
| Gates.AuthDenial | core/forge/mws.go:33-39 | an error matching `NotFound`, `InvalidInput` or `MissingAuth` gives 401 with `MissingAuth`; any other gives 500 with an internal issue caused by it |
| Gates.AuthDenialKinds | core/forge/mws.go:32-40 | a core error gets 401 iff its code and status are those of one of the three sentinels; a pkg/errors error iff its status is 500; a foreign error always gets 500 |
| Gates.GinContext.constructor | core/forge/mws.go:18-19 | a fresh context has no errors, is not aborted, has status 200 and no body |
| Gates.GinContext.Error | core/forge/mws.go:20 | exactly one error is appended |
| Gates.GinContext.AbortWithStatusJSON | core/forge/mws.go:22 | the context is aborted with that status and body; nothing else changes |
| Gates.GinContext.Next | core/forge/mws.go:42-45 | the next handler runs with that request context; nothing else changes |
| Gates.ForgeAuthenticate | core/forge/mws.go:18-47 | `MissingAuth` is recorded on every request; no auth or no token aborts with 401; a refusal aborts as `AuthDenial` says; success runs next with the session set |
| Gates.GinAuthenticate | ginapp/middlewares.go:17-29 | `MissingAuth` is recorded on every request; no token aborts with 401; any token runs next without verification or a session |
| Firebase.ValidateClaims | builtins/firebase/claims.go:25-33 | the token is valid iff issued-at <= now < exp; expired and not-yet-valid tokens are named |
| Firebase.ClaimsWindow | builtins/firebase/claims.go:22-33 | a token whose exp is not after its iat is never valid, and issuer, subject and audience do not enter the time check |
| Firebase.Issuer | builtins/firebase/firebase.go:85-87 | the Firebase issuer prefix followed by the project id |
| Firebase.IssuerInjective | builtins/firebase/firebase.go:85-87 | different projects have different issuers |
| Firebase.Sync | builtins/firebase/keysource.go:41-70 | no refresh until nextSync is past; a fetch error, a bad status or a bad max-age change nothing; success moves nextSync to now + max-age even if decoding fails; decoded keys are merged over the cached ones, and only a JSON `null` body drops keys (it empties the cache) |
| Firebase.NoRefetchWithinMaxAge | builtins/firebase/keysource.go:43-48 | within the max-age of a successful refresh, no refresh happens |
| Firebase.MissingMaxAgeRefetches | builtins/firebase/keysource.go:68 | without a positive max-age, every later call refreshes |
| Firebase.Lookup | builtins/firebase/keysource.go:26-39 | a refresh error is returned; an unknown kid gives `NotFound`; a known kid gives its parsed key |
| Firebase.CacheAvailability | builtins/firebase/keysource.go:26-39 | an unreachable endpoint fails every lookup that needs a refresh, and a cache not due for one answers from its keys |
| Firebase.KeySource.constructor | builtins/firebase/keysource.go:20-24 | the zero key source has no keys and is due for a refresh |
| Firebase.KeySource.SyncIfNeeded | builtins/firebase/keysource.go:41-70 | the new keys and nextSync, and the error, are those of the refresh |
| Firebase.KeySource.Find | builtins/firebase/keysource.go:26-39 | the new cache state and the answer are those of the lookup |
| Firebase.MethodError | builtins/firebase/firebase.go:22 | the library accepts the header only when "alg" is a string naming a registered algorithm |
| Firebase.KeyFunc | builtins/firebase/firebase.go:69-83 | proceeds iff "alg" is "RS256" and "kid" is a string, and then with that kid; otherwise `MissingAuth` |
| Firebase.Verified | builtins/firebase/firebase.go:22-25 | the parse succeeds iff the key lookup succeeds, the signature verifies under the key and the claims are in their time window |
| Firebase.LocalUser | builtins/firebase/firebase.go:44-61 | id is the subject, username "user" + subject, data holds name and picture, both times are now, and it is verified iff the e-mail is |
| Firebase.LocalUserValidates | builtins/firebase/firebase.go:44-61 | the local user validates iff the subject is alphanumeric and the e-mail is valid |
| Firebase.Upsert | builtins/firebase/firebase.go:63-66 | without a registry the built user is used; otherwise the registry's answer |
| Firebase.Authenticated | builtins/firebase/firebase.go:21-42 | the cache changes only through the key lookup of a well-formed RS256 token; the session carries the user, the token and the exp claim |
| Firebase.AuthenticatedAcceptsOnly | builtins/firebase/firebase.go:21-42 | an accepted token is an RS256 token whose key verifies it, whose claims are in their window and whose issuer is the project's |
| Firebase.AuthenticatedRoundTrip | builtins/firebase/firebase.go:21-42 | a valid token of the project, with its key cached, is accepted with the local user, the token and its expiry |
| Firebase.AuthenticatedFailures | builtins/firebase/firebase.go:21-35 | every refusal is `MissingAuth` with a reason, unless it is the registry's own error |
| Firebase.ForgeGateAnswersRefusalWith401 | core/forge/mws.go:32-40 | behind the forge gate, a Firebase refusal is always a 401 |
| Firebase.Auth.constructor | builtins/firebase/firebase.go:14-19 | the auth owns a new, empty key source |
| Firebase.Auth.Authenticate | builtins/firebase/firebase.go:21-42 | the new key-source state and the answer are those of `Authenticated` |

## Left out

- Request-body reading (`userCreds.readFrom`) is not modelled; handlers start from the credentials it yields.
- Response writing is not modelled: `writeErr`, `writeSuccess`, `httpx.WriteJSON`, redirects and status codes of the auth handlers.
- `finishLogin` and `handleLogout` only issue or clear the session cookie and write responses, so they are not modelled.
- Route wiring (`Routes`), `Init`, and the other bootstrap and CLI code are not modelled.
- `handleVerify` is modelled although `Routes` never installs it.
- bcrypt, JWT serialisation, HMAC-SHA512 and RS256 signatures, PEM and RSA parsing, JSON, base64, md5, `net/mail`, `net/url` and the goth providers are not modelled. Each is a function parameter with, where needed, a stated assumption.
- Clock and randomness are parameters; a single `now` serves each operation.
- The SQL text, pgx transport and transactions are not modelled; tables are maps, and a failing statement is an input.
- The columns treated as unique are `users.id`, `users.email`, `users.username` and `user_keys.key`, because the schema is not part of this model.
- The `KeySource` lock and its HTTP fetch are not modelled; the cache is sequential, and the fetched answer is an input.
- The stubs of builtin/pgbase/pgbase.go (`User`, `Verify`, `SetPwd`, `SetData`, `Register`, which panic) and `Connect` are not modelled.
- builtins/supabase/supabase.go is not part of this model, and neither is builtin/firebase/auth.go.
- The snapshot is inconsistent in places:
  - core/core.go's `Session` holds a user, token and expiry, while core/session.go's holds ids and times; both are modelled (`Identity.AppSession`, `Identity.Session`).
  - The router calls a `RestoreSession` that `core.Auth` lacks, so `Gates.RouterAuthenticate` takes the restore function as a parameter.
- Go's 64-bit integer widths are not modelled: times, durations and sizes are unbounded integers.
- OAuth2.SetOAuthFlowState: a JSON failure, which panics in the source, is excluded by a precondition.
- Firebase.Issuer: `fmt.Sprintf` with the project id as its format would mangle a project id containing '%'; the model concatenates.
- Firebase.KeyFunc: the cause's text omits the offending header value.
- AuthUtils.Translate: `Hintf(pgErr.Message)` uses the server's message as a format string, so a '%' in it would be rewritten by `fmt.Sprintf`; the model keeps the message verbatim.
- Errors.ForeignText: the text of a `*pgconn.PgError` always starts with "ERROR: "; the error's severity (which may also be FATAL or PANIC) is not modelled.
- Http.UnmarshalCookie: on a JSON failure the model leaves the target as it was, while `json.Unmarshal` may already have written some fields; the one caller here discards the target on failure, so nothing it returns differs.
- StrUtils.SnakeCase: capitals are the ASCII letters A to Z and the test of the preceding character is on characters; the source uses Unicode `IsUpper`/`ToLower` on runes and tests the preceding BYTE, so the two agree on ASCII input only.
- StrUtils.RandStrOf: characters are drawn from the joined character set; the source draws single bytes, so the two agree on ASCII character sets only (a multi-byte set gives invalid UTF-8 in the source).
- StrUtils.RandStr: proved equal to `RandStrOf`, so it shares that character-for-byte simplification.
- Firebase.Sync: a JSON body that fails part-way is modelled as adding nothing, although the decoder may have stored some keys; the max-age duration is not checked for overflow.
- Identity.SplitAuthKey: a key without "/" makes the source index past the end of `strings.SplitN`'s result and panic; the precondition `'/' in key` excludes that key instead of modelling the panic.
- Identity.ValidateAuthKey: it splits the key with `SplitAuthKey`, so a key without "/" panics in the source rather than giving `invalid_kind`; the same precondition excludes it.
- UserStore.Store.GetUser: it splits the key with `SplitAuthKey`, so a key without "/" panics in the source; the same precondition excludes it. Every caller in this model passes a key built by `NewAuthKey`.
- Jwt.ParseHmac: a token that does not decode fails with the single text "token is malformed", which stands for the library's several texts (wrong segment count, bad base64, bad JSON); the code, status and hint of every session error built on it are unaffected.
- Firebase.ValidateClaims: the library's error texts are approximated, so the hint of a refusal is not the library's exact wording.
- Firebase.Authenticated: the validator and `upsertLocalUser` read the clock separately in the source; the model uses one `now` for both.
- Gates.GinAuthenticate and Gates.ForgeAuthenticate: gin's cookie unescaping is the parameter `unescape`.

## Findings

| source | as written | input that shows it | evidently intended | confidence | as-written member | corrected member |
|---|---|---|---|---|---|---|
| auth/auth_routes.go:229-233 | the handlers test store errors against core/errors sentinels, but the store returns pkg/errors values; a not-found lookup matches no core sentinel | login with an e-mail that no user holds | "user not found", a `MissingAuth` | high, not executed | Routes.UnknownUserLogin | Routes.UnknownUserDenied |
| auth/auth_routes.go:153-157 | the missing row of a first OAuth2 login does not match core `NotFound`, so the callback aborts | an OAuth2 callback for a provider account never seen before | the user is registered with its login key | high, not executed | Routes.FirstOAuthLogin | Routes.FirstOAuthLoginRegisters |
| auth/auth_routes.go:56-61 | a pkg/errors `Conflict` does not match the core `Conflict`, so a duplicate registration is an internal issue | registering an e-mail address that is already taken | a `Conflict` is passed on | high, not executed | Routes.DuplicateRegistration | Routes.DuplicateRegistrationConflict |
| core/router/mws.go:63-68 | jwtauth refuses with `MissingAuth` re-coded `invalid_token`, which no longer matches `MissingAuth`, so the router answers every rejected token with a 500 | a request whose bearer token has a bad signature | a 401 carrying the refusal | high, not executed | Gates.RouterRejectedTokenIsInternal | Gates.RouterRejectedTokenIsUnauthorized |
