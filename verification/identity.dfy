/** The identity model shared by core/user.go, core/user_key.go,
    core/session.go and auth/user.go: the user record and its validation,
    the password gate, redacting clones, new-user defaults, login
    credentials, the "<kind>/<value>" login-key codec and the stored-session
    check.

    Oracles: `valid` stands for `IsValidEmail` (`net/mail` parsing),
    `bcrypt` for `bcrypt.GenerateFromPassword` at cost 12 and `matches` for
    `bcrypt.CompareHashAndPassword` succeeding. */
module Identity {
  import opened Base
  import opened Errors
  import opened Sentinels
  import StrUtils

  datatype User = User(
    id: string,
    kind: string,
    data: map<string, Value>,
    email: string,
    pwdHash: Option<string>,
    username: string,
    createdAt: Time,
    updatedAt: Time,
    verifiedAt: Option<Time>,
    verifyToken: Option<string>,
    attributes: map<string, Value>)

  const DefaultUserKind: string := "user"

  // ------------------------------------------------------------ patterns

  /** `^[a-zA-Z0-9]+$` */
  predicate IdPattern(s: string)
  {
    |s| >= 1 && forall i :: 0 <= i < |s| ==> IsAlnum(s[i])
  }

  /** `^[A-Za-z][A-Za-z0-9_]+[A-Za-z0-9]$`: a letter, at least one letter,
      digit or underscore, then a letter or digit. */
  predicate UsernamePattern(s: string)
  {
    |s| >= 3 && IsLetter(s[0]) && IsAlnum(s[|s| - 1])
    && forall i :: 1 <= i < |s| - 1 ==> IsAlnum(s[i]) || s[i] == '_'
  }

  /** `^[A-Za-z_]+$` */
  predicate KeyKindPattern(s: string)
  {
    |s| >= 1 && forall i :: 0 <= i < |s| ==> IsLetter(s[i]) || s[i] == '_'
  }

  // ---------------------------------------------------------- validation

  /** The error `Validate` returns, with the hint naming the failed check. */
  function InvalidUser(hint: string): Err
  {
    Forge(CorePkg, Hintf(Coded(Sentinel(CorePkg, InvalidInput), "invalid_user", []), hint))
  }

  /** `User.Validate`: the id, then the username, then the e-mail address;
      `None` is a nil error. */
  function Validate(u: User, valid: string -> bool): (r: Option<Err>)
    ensures r.None? <==> IdPattern(u.id) && UsernamePattern(u.username) && valid(u.email)
    ensures !IdPattern(u.id) ==> r == Some(InvalidUser("invalid id"))
    ensures IdPattern(u.id) && !UsernamePattern(u.username) ==> r == Some(InvalidUser("invalid username"))
    ensures IdPattern(u.id) && UsernamePattern(u.username) && !valid(u.email) ==> r == Some(InvalidUser("invalid email"))
  {
    if !IdPattern(u.id) then Some(InvalidUser("invalid id"))
    else if !UsernamePattern(u.username) then Some(InvalidUser("invalid username"))
    else if !valid(u.email) then Some(InvalidUser("invalid email"))
    else None
  }

  /** Every failure of `Validate` is an invalid input, re-coded so that it
      no longer matches the `InvalidInput` sentinel itself. */
  lemma {:induction false} ValidateFailureIsRecoded(u: User, valid: string -> bool)
    requires Validate(u, valid).Some?
    ensures Validate(u, valid).value.Forge? && Validate(u, valid).value.e.code == "invalid_user"
    ensures Validate(u, valid).value.e.status == 400
    ensures !Is(Validate(u, valid).value, S(CorePkg, InvalidInput))
  {
  }

  // ------------------------------------------------------------ password

  /** `strongPassword`: at least 8 bytes. */
  predicate StrongPassword(pwd: string)
  {
    Utf8Len(pwd) >= 8
  }

  /** What the bcrypt oracles are assumed to satisfy: a hash made from a
      password matches that password. */
  ghost predicate BcryptSound(bcrypt: string -> Result<string>, matches: (string, string) -> bool)
  {
    forall p :: bcrypt(p).Ok? ==> matches(bcrypt(p).value, p)
  }

  /** `HashPassword`: a weak password is refused before any hashing; a
      hashing failure becomes an internal issue caused by it. */
  function HashPassword(pwd: string, bcrypt: string -> Result<string>): (r: Result<string>)
    ensures !StrongPassword(pwd) ==> r == Fail(SHint(CorePkg, InvalidInput, "password is not strong enough"))
    ensures StrongPassword(pwd) && bcrypt(pwd).Ok? ==> r == bcrypt(pwd)
    ensures StrongPassword(pwd) && bcrypt(pwd).Fail? ==> r == Fail(SCause(CorePkg, InternalIssue, bcrypt(pwd).err))
    ensures r.Ok? <==> StrongPassword(pwd) && bcrypt(pwd).Ok?
    ensures !StrongPassword(pwd) ==> Is(r.err, S(CorePkg, InvalidInput))
    ensures StrongPassword(pwd) && bcrypt(pwd).Fail? ==> Is(r.err, S(CorePkg, InternalIssue))
  {
    if !StrongPassword(pwd) then Fail(SHint(CorePkg, InvalidInput, "password is not strong enough"))
    else match bcrypt(pwd)
      case Ok(h) => Ok(h)
      case Fail(e) => Fail(SCause(CorePkg, InternalIssue, e))
  }

  /** The gate does not depend on the hasher: a weak password gets the same
      answer whatever bcrypt would do, and only a strong one can succeed. */
  lemma {:induction false} HashPasswordGate(pwd: string, b1: string -> Result<string>, b2: string -> Result<string>)
    ensures !StrongPassword(pwd) ==> HashPassword(pwd, b1) == HashPassword(pwd, b2)
    ensures HashPassword(pwd, b1).Ok? ==> StrongPassword(pwd)
    ensures !StrongPassword(pwd) ==> Is(HashPassword(pwd, b1).err, S(CorePkg, InvalidInput))
  {
  }

  /** `CheckPassword`: false without a hash, else whether bcrypt accepts. */
  function CheckPassword(hash: Option<string>, pwd: string, matches: (string, string) -> bool): (ok: bool)
    ensures hash.None? ==> !ok
    ensures ok ==> hash.Some? && matches(hash.value, pwd)
  {
    hash.Some? && matches(hash.value, pwd)
  }

  /** Round trip: a hash `HashPassword` returns checks against its password. */
  lemma {:induction false} HashThenCheck(pwd: string, bcrypt: string -> Result<string>, matches: (string, string) -> bool)
    requires BcryptSound(bcrypt, matches)
    requires HashPassword(pwd, bcrypt).Ok?
    ensures CheckPassword(Some(HashPassword(pwd, bcrypt).value), pwd, matches)
  {
  }

  // --------------------------------------------------------------- clone

  /** The user `Clone(safe)` returns. */
  function Cloned(u: User, safe: bool): (c: User)
    ensures c.id == u.id && c.email == u.email && c.username == u.username
    ensures c.createdAt == u.createdAt && c.updatedAt == u.updatedAt && c.verifiedAt == u.verifiedAt
    ensures c.data == u.data
    ensures c.kind == "" && c.attributes == map[]
    ensures safe ==> c.pwdHash.None? && c.verifyToken.None?
    ensures !safe ==> c.pwdHash == u.pwdHash && c.verifyToken == u.verifyToken
  {
    User(u.id, "", u.data, u.email, if safe then None else u.pwdHash, u.username,
         u.createdAt, u.updatedAt, u.verifiedAt, if safe then None else u.verifyToken, map[])
  }

  /** `Clone`: builds the copy and fills its fresh `Data` map entry by entry. */
  method Clone(u: User, safe: bool) returns (c: User)
    ensures c == Cloned(u, safe)
  {
    var data: map<string, Value> := map[];
    var todo := u.data.Keys;
    while todo != {}
      invariant todo <= u.data.Keys
      invariant data == map k | k in u.data.Keys - todo :: u.data[k]
      decreases todo
    {
      var k :| k in todo;
      data := data[k := u.data[k]];
      todo := todo - {k};
    }
    assert data == u.data;
    c := User(u.id, "", data, u.email, None, u.username, u.createdAt, u.updatedAt, u.verifiedAt, None, map[]);
    if !safe {
      c := c.(pwdHash := u.pwdHash, verifyToken := u.verifyToken);
    }
  }

  /** A clone validates exactly as the original does, and cloning a safe
      clone changes nothing. */
  lemma {:induction false} CloneKeepsIdentity(u: User, safe: bool, valid: string -> bool)
    ensures Validate(Cloned(u, safe), valid) == Validate(u, valid)
    ensures Cloned(Cloned(u, true), true) == Cloned(u, true)
    ensures Cloned(Cloned(u, safe), false) == Cloned(u, safe)
  {
  }

  // ------------------------------------------------------------ new user

  /** The random draws `NewUser` makes, in order: the username digits (only
      when no username is given), the verify token, the id. */
  predicate NewUserDraws(username: string, digitDraws: seq<int>, tokenDraws: seq<int>, idDraws: seq<int>)
  {
    (username == "" ==> StrUtils.ValidDraws(8, StrUtils.Charset([StrUtils.CharsetNums]), digitDraws))
    && StrUtils.ValidDraws(10, StrUtils.Charset([]), tokenDraws)
    && StrUtils.ValidDraws(16, StrUtils.Charset([]), idDraws)
  }

  /** "user" followed by eight random digits. */
  function GeneratedUsername(digitDraws: seq<int>): (name: string)
    requires StrUtils.ValidDraws(8, StrUtils.Charset([StrUtils.CharsetNums]), digitDraws)
    ensures HasPrefix(name, "user") && |name| == 12
    ensures forall i :: 4 <= i < 12 ==> IsDigit(name[i])
  {
    StrUtils.DigitsCharset(8, digitDraws);
    var digits := StrUtils.RandStrOf(8, [StrUtils.CharsetNums], digitDraws);
    assert ("user" + digits)[..4] == "user";
    assert forall i :: 4 <= i < 12 ==> ("user" + digits)[i] == digits[i - 4];
    "user" + digits
  }

  /** `NewUser` at time `now` with the given random draws. */
  function NewUser(kind: string, username: string, email: string, now: Time,
                   digitDraws: seq<int>, tokenDraws: seq<int>, idDraws: seq<int>): (u: User)
    requires NewUserDraws(username, digitDraws, tokenDraws, idDraws)
    ensures TrimSpace(kind) != "" ==> u.kind == TrimSpace(kind)
    ensures TrimSpace(kind) == "" ==> u.kind == DefaultUserKind
    ensures username != "" ==> u.username == username
    ensures username == "" ==> (HasPrefix(u.username, "user") && |u.username| == 12
                                && forall i :: 4 <= i < 12 ==> IsDigit(u.username[i]))
    ensures |u.id| == 16 && u.verifyToken.Some? && |u.verifyToken.value| == 10
    ensures u.email == email && u.data == map[] && u.pwdHash.None? && u.verifiedAt.None?
    ensures u.createdAt == now && u.updatedAt == now
  {
    var k := TrimSpace(kind);
    var name := if username == "" then GeneratedUsername(digitDraws) else username;
    var token := StrUtils.RandStrOf(10, [], tokenDraws);
    User(StrUtils.RandStrOf(16, [], idDraws), if k == "" then DefaultUserKind else k, map[], email, None,
         name, now, now, None, Some(token), map[])
  }

  /** A new user with a generated name passes `Validate` exactly when its
      e-mail address is valid: the id is alphanumeric and "user" followed
      by eight digits is a valid username. */
  lemma {:induction false} NewUserValidates(kind: string, email: string, now: Time, valid: string -> bool,
                         digitDraws: seq<int>, tokenDraws: seq<int>, idDraws: seq<int>)
    requires NewUserDraws("", digitDraws, tokenDraws, idDraws)
    ensures Validate(NewUser(kind, "", email, now, digitDraws, tokenDraws, idDraws), valid).None? <==> valid(email)
  {
    var u := NewUser(kind, "", email, now, digitDraws, tokenDraws, idDraws);
    StrUtils.DefaultCharsetAlnum(16, idDraws);
    assert IdPattern(u.id);
    var n := u.username;
    assert n[0] == 'u';
    forall i | 1 <= i < |n|
      ensures IsAlnum(n[i])
    {
      if i >= 4 {
        assert IsDigit(n[i]);
      } else {
        assert n[..4] == "user";
        assert n[i] == "user"[i];
      }
    }
    assert UsernamePattern(n);
  }

  // ---------------------------------------------------------- credentials

  /** The login/registration credentials of a request. */
  datatype Creds = Creds(kind: string, email: string, username: string, password: string)

  function InvalidCreds(hint: string): Err
  {
    Forge(CorePkg, Hintf(Coded(Sentinel(CorePkg, InvalidInput), "invalid_creds", []), hint))
  }

  /** `userCreds.sanitizeAndValidate`: an e-mail or a username is needed,
      and each one given must be well formed; the password is not checked. */
  function SanitizeAndValidate(c: Creds, valid: string -> bool): (r: Option<Err>)
    ensures r.None? <==> (c.email != "" || c.username != "")
                         && (c.email != "" ==> valid(c.email))
                         && (c.username != "" ==> UsernamePattern(c.username))
    ensures c.email == "" && c.username == "" ==> r == Some(InvalidCreds("username or email must be specified"))
    ensures c.email != "" && !valid(c.email) ==> r == Some(InvalidCreds("invalid email"))
    ensures ((c.email == "" || valid(c.email)) && c.username != "" && !UsernamePattern(c.username))
              ==> r == Some(InvalidCreds("invalid username"))
  {
    if c.email == "" && c.username == "" then Some(InvalidCreds("username or email must be specified"))
    else if c.email != "" && !valid(c.email) then Some(InvalidCreds("invalid email"))
    else if c.username != "" && !UsernamePattern(c.username) then Some(InvalidCreds("invalid username"))
    else None
  }

  // ----------------------------------------------------------- login keys

  const KeyKindID: string := "id"
  const KeyKindEmail: string := "email"
  const KeyKindUsername: string := "username"

  /** `NewAuthKey`: `kind`, the separator "/", then `value`. */
  function NewAuthKey(kind: string, value: string): (key: string)
    ensures |key| == |kind| + 1 + |value|
    ensures key[|kind|] == '/' && '/' in key
  {
    kind + "/" + value
  }

  /** `SplitAuthKey`: splits at the FIRST "/". Go indexes the second part
      without a check, so a key without "/" is outside its domain. */
  function SplitAuthKey(key: string): (kv: (string, string))
    requires '/' in key
    ensures '/' !in kv.0
    ensures NewAuthKey(kv.0, kv.1) == key
  {
    var i := IndexOf(key, '/');
    assert key == key[..i] + "/" + key[i + 1..];
    (key[..i], key[i + 1..])
  }

  /** Round trip: a key built from a kind without "/" splits back into its
      kind and value, whatever the value holds. */
  lemma {:induction false} SplitNewAuthKey(kind: string, value: string)
    requires '/' !in kind
    ensures '/' in NewAuthKey(kind, value)
    ensures SplitAuthKey(NewAuthKey(kind, value)) == (kind, value)
  {
    var key := NewAuthKey(kind, value);
    assert key[|kind|] == '/';
    assert forall j :: 0 <= j < |kind| ==> key[j] == kind[j];
    var i := IndexOf(key, '/');
    assert i == |kind|;
    assert key[..i] == kind;
    assert key[i + 1..] == value;
  }

  /** `ValidateAuthKey` of the errors package `p`: the kind must match
      `^[A-Za-z_]+$` and trimming the value must not shorten it. */
  function ValidateAuthKey(p: Pkg, key: string): (r: Option<Err>)
    requires '/' in key
    ensures !KeyKindPattern(SplitAuthKey(key).0) ==> r == Some(SCoded(p, InvalidInput, "invalid_kind"))
    ensures (KeyKindPattern(SplitAuthKey(key).0) && Utf8Len(TrimSpace(SplitAuthKey(key).1)) != Utf8Len(SplitAuthKey(key).1))
              ==> r == Some(SCoded(p, InvalidInput, "invalid_value"))
  {
    var (kind, val) := SplitAuthKey(key);
    if !KeyKindPattern(kind) then Some(SCoded(p, InvalidInput, "invalid_kind"))
    else if Utf8Len(TrimSpace(val)) != Utf8Len(val) then Some(SCoded(p, InvalidInput, "invalid_value"))
    else None
  }

  /** A key is accepted exactly when its kind matches the pattern and its
      value neither starts nor ends with white space. */
  lemma {:induction false} ValidateAuthKeyAccepts(p: Pkg, kind: string, value: string)
    requires '/' !in kind
    ensures ValidateAuthKey(p, NewAuthKey(kind, value)).None?
      <==> KeyKindPattern(kind) && (value == [] || (!IsSpace(value[0]) && !IsSpace(value[|value| - 1])))
  {
    SplitNewAuthKey(kind, value);
    TrimSpaceKeepsLength(value);
    TrimSpaceFixpoint(value);
  }

  // --------------------------------------------------------- stored session

  /** core/session.go's session record. */
  datatype Session = Session(id: string, userID: string, createdAt: Time, expiresAt: Time)

  /** `Session.validate`: the id first, then the user id; times are not looked at. */
  function ValidateSession(s: Session): (r: Option<Err>)
    ensures r.None? <==> s.id != "" && s.userID != ""
    ensures s.id == "" ==> r == Some(SHint(CorePkg, InvalidInput, "id must be set"))
    ensures s.id != "" && s.userID == "" ==> r == Some(SHint(CorePkg, InvalidInput, "user_id must be set"))
  {
    if s.id == "" then Some(SHint(CorePkg, InvalidInput, "id must be set"))
    else if s.userID == "" then Some(SHint(CorePkg, InvalidInput, "user_id must be set"))
    else None
  }

  /** The login session of core/core.go that the gin apps' `Auth` returns:
      the user, the token it was restored from and its expiry. (It shares
      the name `Session` with the record above in the same package.) */
  datatype AppSession = AppSession(user: User, token: string, expiry: Time)
}
