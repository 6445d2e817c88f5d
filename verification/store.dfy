/** auth/auth_user.go: the user store over the `users` and `user_keys`
    tables, held here as two maps that the operations update in place.

    The table constraints assumed (the schema is not part of this model):
    `users.id` is the primary key, `users.email` and `users.username` are
    unique, `user_keys.key` is unique and refers to an existing user. A
    statement that would break one of them fails with SQLSTATE 23505.

    Database transport failures (a lost connection, a failed commit) are
    inputs: a `TxFaults` value or a `fault` parameter says which statement
    fails and with which foreign error. */
module UserStore {
  import opened Base
  import opened Errors
  import opened Sentinels
  import opened Identity
  import opened AuthUtils
  import StrUtils

  /** A login key to register (`auth.Key`). */
  datatype Key = Key(key: string, attribs: map<string, Value>)

  /** A `user_keys` row, keyed by its `key` column. */
  datatype KeyRow = KeyRow(userID: string, attribs: map<string, Value>)

  /** Which statement of `RegisterUser`'s transaction fails, if any. */
  datatype TxFaults = TxFaults(
    begin: Option<Foreign>,
    insertUser: Option<Foreign>,
    insertKeys: Option<Foreign>,
    commit: Option<Foreign>)

  /** The database error of a statement that breaks a unique constraint. */
  const UniqueViolationErr: Foreign := PgError(UniqueViolation, "duplicate key value violates unique constraint")

  /** What a lookup that finds no row returns: the no-rows error translated. */
  function NoRowsErr(): (e: Err)
    ensures e == SCoded(PkgPkg, NotFound, "not_found")
  {
    Translate(Foreign(PgxNoRows))
  }

  /** The error for a kind outside the enabled kinds. */
  function InvalidKind(kind: string): Err
  {
    SCodedHint(PkgPkg, InvalidInput, "invalid_kind", "user kind '" + kind + "' is not valid")
  }

  // ------------------------------------------------------------ key rows

  /** The rows `insertLoginKeys` writes: each key bound to `uid`, a later
      duplicate overriding an earlier one. */
  function KeyRows(uid: string, ks: seq<Key>): map<string, KeyRow>
  {
    if ks == [] then map[]
    else KeyRows(uid, ks[..|ks| - 1])[ks[|ks| - 1].key := KeyRow(uid, ks[|ks| - 1].attribs)]
  }

  /** The rows hold exactly the given keys, every one bound to `uid`; an
      empty key list writes no row. */
  lemma {:induction false} KeyRowsShape(uid: string, ks: seq<Key>)
    ensures forall k :: k in KeyRows(uid, ks) <==> exists i :: 0 <= i < |ks| && ks[i].key == k
    ensures forall k :: k in KeyRows(uid, ks) ==> KeyRows(uid, ks)[k].userID == uid
    ensures ks == [] ==> KeyRows(uid, ks) == map[]
  {
    if ks != [] {
      var init := ks[..|ks| - 1];
      KeyRowsShape(uid, init);
      assert forall i :: 0 <= i < |init| ==> init[i] == ks[i];
    }
  }

  /** A single key writes a single row. */
  lemma {:induction false} KeyRowsSingle(table: map<string, KeyRow>, uid: string, k: Key)
    ensures table + KeyRows(uid, [k]) == table[k.key := KeyRow(uid, k.attribs)]
  {
    assert [k][..0] == [];
  }

  /** None of the keys is taken yet and no key repeats. */
  predicate KeysFresh(table: map<string, KeyRow>, ks: seq<Key>)
  {
    forall i :: 0 <= i < |ks| ==> ks[i].key !in table && forall j :: 0 <= j < i ==> ks[j].key != ks[i].key
  }

  /** One more key: its row is added to the staged table. */
  lemma {:induction false} KeyRowsStep(table: map<string, KeyRow>, uid: string, ks: seq<Key>, i: nat)
    requires i < |ks|
    ensures table + KeyRows(uid, ks[..i + 1]) == (table + KeyRows(uid, ks[..i]))[ks[i].key := KeyRow(uid, ks[i].attribs)]
  {
    assert ks[..i + 1][..i] == ks[..i];
  }

  /** One more key keeps the keys fresh when it is neither in the table
      nor among the earlier keys. */
  lemma {:induction false} KeysFreshExtend(table: map<string, KeyRow>, uid: string, ks: seq<Key>, i: nat)
    requires i < |ks|
    requires KeysFresh(table, ks[..i]) && ks[i].key !in table + KeyRows(uid, ks[..i])
    ensures KeysFresh(table, ks[..i + 1])
  {
    var pre := ks[..i];
    var next := ks[..i + 1];
    KeyRowsShape(uid, pre);
    forall a | 0 <= a < i + 1
      ensures next[a].key !in table && forall b :: 0 <= b < a ==> next[b].key != next[a].key
    {
      if a < i {
        assert next[a] == pre[a];
        assert forall b :: 0 <= b < a ==> next[b] == pre[b];
      } else {
        forall b | 0 <= b < i
          ensures next[b].key != ks[i].key
        {
          assert next[b] == pre[b];
          assert pre[b].key in KeyRows(uid, pre);
        }
      }
    }
  }

  /** Fresh keys stay fresh without their last one, and that last key is
      neither in the table nor among the earlier keys. */
  lemma {:induction false} KeysFreshShrink(table: map<string, KeyRow>, uid: string, ks: seq<Key>, i: nat)
    requires i < |ks|
    requires KeysFresh(table, ks[..i + 1])
    ensures KeysFresh(table, ks[..i]) && ks[i].key !in table + KeyRows(uid, ks[..i])
  {
    var pre := ks[..i];
    var next := ks[..i + 1];
    KeyRowsShape(uid, pre);
    forall a | 0 <= a < i
      ensures pre[a].key !in table && forall b :: 0 <= b < a ==> pre[b].key != pre[a].key
    {
      assert next[a] == pre[a];
      assert forall b :: 0 <= b < a ==> next[b] == pre[b];
    }
    forall k | k in KeyRows(uid, pre)
      ensures k != ks[i].key
    {
      var j :| 0 <= j < |pre| && pre[j].key == k;
      assert next[j].key != next[i].key;
    }
  }

  /** One more key: the keys stay fresh exactly when it is not yet in the
      table or among the earlier keys. */
  lemma {:induction false} KeysFreshStep(table: map<string, KeyRow>, uid: string, ks: seq<Key>, i: nat)
    requires i < |ks|
    ensures KeysFresh(table, ks[..i + 1]) <==> KeysFresh(table, ks[..i]) && ks[i].key !in table + KeyRows(uid, ks[..i])
  {
    if KeysFresh(table, ks[..i]) && ks[i].key !in table + KeyRows(uid, ks[..i]) {
      KeysFreshExtend(table, uid, ks, i);
    }
    if KeysFresh(table, ks[..i + 1]) {
      KeysFreshShrink(table, uid, ks, i);
    }
  }

  /** How `insertLoginKeys` fails, if it does: nothing is executed for an
      empty list; otherwise a transport fault, then a clash on `key`. */
  function InsertKeysFailure(table: map<string, KeyRow>, ks: seq<Key>, fault: Option<Foreign>): Option<Err>
  {
    if |ks| == 0 then None
    else if fault.Some? then Some(Translate(Foreign(fault.value)))
    else if !KeysFresh(table, ks) then Some(Translate(Foreign(UniqueViolationErr)))
    else None
  }

  /** `insertLoginKeys` inside a transaction whose `user_keys` table is
      `table`: adds one row per key, in order, and reports a clash. */
  method InsertLoginKeys(table: map<string, KeyRow>, uid: string, ks: seq<Key>, fault: Option<Foreign>)
    returns (err: Option<Err>, staged: map<string, KeyRow>)
    ensures err == InsertKeysFailure(table, ks, fault)
    ensures err.None? ==> staged == table + KeyRows(uid, ks)
  {
    staged := table;
    err := None;
    if |ks| > 0 {
      if fault.Some? {
        err := Some(Translate(Foreign(fault.value)));
        return;
      }
      var clash := false;
      var i := 0;
      while i < |ks|
        invariant 0 <= i <= |ks|
        invariant staged == table + KeyRows(uid, ks[..i])
        invariant clash <==> !KeysFresh(table, ks[..i])
      {
        KeyRowsStep(table, uid, ks, i);
        KeysFreshStep(table, uid, ks, i);
        if ks[i].key in staged {
          clash := true;
        }
        staged := staged[ks[i].key := KeyRow(uid, ks[i].attribs)];
        i := i + 1;
      }
      assert ks[..i] == ks;
      if clash {
        err := Some(Translate(Foreign(UniqueViolationErr)));
      }
    }
  }

  // ------------------------------------------------------------ the store

  /** The user `RegisterUser` stores: both timestamps set to `now` and the
      verification time cleared. */
  function Stamped(u: User, now: Time): (v: User)
    ensures v.createdAt == now && v.updatedAt == now && v.verifiedAt.None?
    ensures v.(createdAt := u.createdAt, updatedAt := u.updatedAt, verifiedAt := u.verifiedAt) == u
  {
    u.(createdAt := now, updatedAt := now, verifiedAt := None)
  }

  /** `u` would break a unique constraint of `users`. */
  predicate UserClash(users: map<string, User>, u: User)
  {
    u.id in users || exists id :: id in users && (users[id].email == u.email || users[id].username == u.username)
  }

  /** How `insertUser` fails, if it does. */
  function InsertUserFailure(users: map<string, User>, u: User, fault: Option<Foreign>): Option<Err>
  {
    if fault.Some? then Some(Translate(Foreign(fault.value)))
    else if UserClash(users, u) then Some(Translate(Foreign(UniqueViolationErr)))
    else None
  }

  /** Why `RegisterUser` fails, in the order it checks: validation, the
      enabled kinds, then each statement of the transaction. */
  function RegisterFailure(users: map<string, User>, keys: map<string, KeyRow>, v: User, loginKeys: seq<Key>,
                           enabledKinds: seq<string>, valid: string -> bool, faults: TxFaults): Option<Err>
  {
    if Validate(v, valid).Some? then Validate(v, valid)
    else if v.kind !in enabledKinds then Some(InvalidKind(v.kind))
    else if faults.begin.Some? then Some(Translate(Foreign(faults.begin.value)))
    else if InsertUserFailure(users, v, faults.insertUser).Some? then InsertUserFailure(users, v, faults.insertUser)
    else if InsertKeysFailure(keys, loginKeys, faults.insertKeys).Some? then InsertKeysFailure(keys, loginKeys, faults.insertKeys)
    else if faults.commit.Some? then Some(Translate(Foreign(faults.commit.value)))
    else None
  }

  /** Registration succeeds exactly when the stamped user validates, its
      kind is enabled, no statement fails and nothing clashes; an invalid
      user keeps `Validate`'s error, a disabled kind gets `invalid_kind`,
      and a clash (with no transport fault) is a `Conflict`. */
  lemma {:induction false} RegisterFailureCases(users: map<string, User>, keys: map<string, KeyRow>, v: User, loginKeys: seq<Key>,
                             enabledKinds: seq<string>, valid: string -> bool, faults: TxFaults)
    ensures RegisterFailure(users, keys, v, loginKeys, enabledKinds, valid, faults).None? <==>
              Validate(v, valid).None? && v.kind in enabledKinds
              && faults.begin.None? && faults.insertUser.None? && faults.commit.None?
              && (|loginKeys| > 0 ==> faults.insertKeys.None?)
              && !UserClash(users, v) && KeysFresh(keys, loginKeys)
    ensures Validate(v, valid).Some? ==> RegisterFailure(users, keys, v, loginKeys, enabledKinds, valid, faults) == Validate(v, valid)
    ensures Validate(v, valid).None? && v.kind !in enabledKinds ==>
              RegisterFailure(users, keys, v, loginKeys, enabledKinds, valid, faults) == Some(InvalidKind(v.kind))
    ensures (Validate(v, valid).None? && v.kind in enabledKinds && faults.begin.None? && faults.insertUser.None?
             && UserClash(users, v)) ==>
              Is(RegisterFailure(users, keys, v, loginKeys, enabledKinds, valid, faults).value, S(PkgPkg, Conflict))
  {
    if |loginKeys| == 0 {
      assert KeysFresh(keys, loginKeys);
    }
  }

  /** The table constraints: rows are filed under their id, e-mail and
      username are unique, and every login key belongs to a user. */
  ghost predicate TablesValid(users: map<string, User>, keys: map<string, KeyRow>)
  {
    (forall id :: id in users ==> users[id].id == id)
    && (forall a, b :: a in users && b in users && users[a].email == users[b].email ==> a == b)
    && (forall a, b :: a in users && b in users && users[a].username == users[b].username ==> a == b)
    && (forall k :: k in keys ==> keys[k].userID in users)
  }

  /** Rewriting an existing row without touching its id, e-mail or
      username keeps the table constraints. */
  lemma {:induction false} RowUpdateKeepsValid(users: map<string, User>, keys: map<string, KeyRow>, id: string, row: User)
    requires TablesValid(users, keys)
    requires id in users && row.id == id
    requires row.email == users[id].email && row.username == users[id].username
    ensures TablesValid(users[id := row], keys)
  {
    var next := users[id := row];
    forall a, b | a in next && b in next && next[a].email == next[b].email
      ensures a == b
    {
      assert next[a].email == users[a].email && next[b].email == users[b].email;
    }
    forall a, b | a in next && b in next && next[a].username == next[b].username
      ensures a == b
    {
      assert next[a].username == users[a].username && next[b].username == users[b].username;
    }
  }

  class Store {
    var users: map<string, User>
    var keys: map<string, KeyRow>

    /** The table constraints hold for the current tables. */
    ghost predicate Valid()
      reads this
    {
      TablesValid(users, keys)
    }

    constructor ()
      ensures Valid() && users == map[] && keys == map[]
    {
      users := map[];
      keys := map[];
    }

    /** The lookup condition of `GetUser`: the column named by the key's
        kind for "id", "email" and "username", otherwise a `user_keys` row
        with the whole key bound to the user. */
    predicate Matches(u: User, authKey: string)
      reads this
      requires '/' in authKey
    {
      var (kind, val) := SplitAuthKey(authKey);
      if kind == KeyKindID then u.id == val
      else if kind == KeyKindEmail then u.email == val
      else if kind == KeyKindUsername then u.username == val
      else authKey in keys && keys[authKey].userID == u.id
    }

    /** At most one row matches a key. */
    lemma {:induction false} MatchUnique(a: string, b: string, authKey: string)
      requires Valid() && '/' in authKey
      requires a in users && b in users && Matches(users[a], authKey) && Matches(users[b], authKey)
      ensures a == b
    {
    }

    /** What `GetUser` finds. */
    ghost function Lookup(authKey: string): Result<User>
      reads this
      requires '/' in authKey
    {
      if exists id :: id in users && Matches(users[id], authKey) then
        var id :| id in users && Matches(users[id], authKey);
        Ok(users[id])
      else
        Fail(NoRowsErr())
    }

    /** A lookup succeeds exactly when a row matches, and then returns that
        row; with an "id/" key it returns the row of that id. */
    lemma {:induction false} LookupSpec(authKey: string)
      requires Valid() && '/' in authKey
      ensures Lookup(authKey).Ok? <==> exists id :: id in users && Matches(users[id], authKey)
      ensures Lookup(authKey).Ok? ==> Lookup(authKey).value.id in users
                                       && users[Lookup(authKey).value.id] == Lookup(authKey).value
                                       && Matches(Lookup(authKey).value, authKey)
      ensures Lookup(authKey).Fail? ==> Lookup(authKey).err == NoRowsErr()
    {
    }

    /** Looking a user up by its id. */
    lemma {:induction false} LookupById(id: string)
      requires Valid()
      ensures '/' in NewAuthKey(KeyKindID, id)
      ensures Lookup(NewAuthKey(KeyKindID, id)) == if id in users then Ok(users[id]) else Fail(NoRowsErr())
    {
      SplitNewAuthKey(KeyKindID, id);
      if id in users {
        assert Matches(users[id], NewAuthKey(KeyKindID, id));
      }
    }

    /** `GetUser`: scans the rows for the one matching `authKey`; `fault`
        is a failure of the query itself. */
    method GetUser(authKey: string, fault: Option<Foreign>) returns (r: Result<User>)
      requires Valid() && '/' in authKey
      ensures fault.Some? ==> r == Fail(Translate(Foreign(fault.value)))
      ensures fault.None? ==> r == Lookup(authKey)
    {
      if fault.Some? {
        return Fail(Translate(Foreign(fault.value)));
      }
      var todo := users.Keys;
      while todo != {}
        invariant todo <= users.Keys
        invariant forall id :: id in users && id !in todo ==> !Matches(users[id], authKey)
        decreases todo
      {
        var id :| id in todo;
        if Matches(users[id], authKey) {
          ghost var other :| other in users && Matches(users[other], authKey) && users[other] == Lookup(authKey).value;
          MatchUnique(id, other, authKey);
          return Ok(users[id]);
        }
        todo := todo - {id};
      }
      return Fail(NoRowsErr());
    }

    /** `RegisterUser`: stamps the user, validates it and checks its kind,
        then inserts the user and its keys in one transaction. Either both
        tables gain the user and all its keys or neither changes. */
    method RegisterUser(u: User, loginKeys: seq<Key>, enabledKinds: seq<string>, now: Time,
                        valid: string -> bool, faults: TxFaults) returns (r: Result<User>)
      requires Valid()
      modifies this
      ensures Valid()
      ensures var v := Stamped(u, now);
              var f := RegisterFailure(old(users), old(keys), v, loginKeys, enabledKinds, valid, faults);
              (f.Some? ==> r == Fail(f.value) && users == old(users) && keys == old(keys))
              && (f.None? ==> r == Ok(v) && users == old(users)[v.id := v] && keys == old(keys) + KeyRows(v.id, loginKeys))
    {
      var v := u.(createdAt := now, updatedAt := now, verifiedAt := None);
      var verr := Validate(v, valid);
      if verr.Some? {
        return Fail(verr.value);
      }
      var enabled := StrUtils.OneOf(v.kind, enabledKinds);
      if !enabled {
        return Fail(InvalidKind(v.kind));
      }
      if faults.begin.Some? {
        return Fail(Translate(Foreign(faults.begin.value)));
      }
      // The transaction works on staged tables; only the commit publishes them.
      var uerr := InsertUserFailure(users, v, faults.insertUser);
      if uerr.Some? {
        return Fail(uerr.value);
      }
      var stagedUsers := users[v.id := v];
      var kerr, stagedKeys := InsertLoginKeys(keys, v.id, loginKeys, faults.insertKeys);
      if kerr.Some? {
        return Fail(kerr.value);
      }
      if faults.commit.Some? {
        return Fail(Translate(Foreign(faults.commit.value)));
      }
      KeyRowsShape(v.id, loginKeys);
      users, keys := stagedUsers, stagedKeys;
      r := Ok(v);
    }

    /** The row `VerifyUser` updates matches both the id and the token. */
    predicate Verifies(userID: string, token: string)
      reads this
    {
      userID in users && users[userID].verifyToken == Some(token)
    }

    /** `VerifyUser`: a one-shot compare-and-clear of the verify token,
        then the fresh row read back by id; `fault` is a failure of the
        update, `readFault` one of that read, which comes after the row has
        already been changed. */
    method VerifyUser(userID: string, token: string, now: Time, fault: Option<Foreign>, readFault: Option<Foreign>)
      returns (r: Result<User>)
      requires Valid()
      modifies this
      ensures Valid() && keys == old(keys)
      ensures fault.Some? ==> r == Fail(Translate(Foreign(fault.value))) && users == old(users)
      ensures fault.None? && !old(Verifies(userID, token)) ==> r == Fail(S(PkgPkg, NotFound)) && users == old(users)
      ensures fault.None? && old(Verifies(userID, token)) ==>
                users == old(users)[userID := old(users)[userID].(verifiedAt := Some(now), updatedAt := now, verifyToken := None)]
                && r == if readFault.Some? then Fail(Translate(Foreign(readFault.value))) else Ok(users[userID])
    {
      if fault.Some? {
        return Fail(Translate(Foreign(fault.value)));
      }
      if !Verifies(userID, token) {
        return Fail(S(PkgPkg, NotFound));
      }
      RowUpdateKeepsValid(users, keys, userID, users[userID].(verifiedAt := Some(now), updatedAt := now, verifyToken := None));
      users := users[userID := users[userID].(verifiedAt := Some(now), updatedAt := now, verifyToken := None)];
      LookupById(userID);
      r := GetUser(NewAuthKey(KeyKindID, userID), readFault);
    }

    /** `SetPassword`: hashes first (a weak password never reaches the
        store), then sets the hash and the update time of the row with
        that id, if there is one. */
    method SetPassword(id: string, password: string, now: Time, bcrypt: string -> Result<string>,
                       fault: Option<Foreign>) returns (err: Option<Err>)
      requires Valid()
      modifies this
      ensures Valid() && keys == old(keys)
      ensures HashPassword(password, bcrypt).Fail? ==> err == Some(HashPassword(password, bcrypt).err) && users == old(users)
      ensures HashPassword(password, bcrypt).Ok? && fault.Some? ==>
                err == Some(Translate(Foreign(fault.value))) && users == old(users)
      ensures HashPassword(password, bcrypt).Ok? && fault.None? ==>
                err.None?
                && users == if id in old(users)
                            then old(users)[id := old(users)[id].(pwdHash := Some(HashPassword(password, bcrypt).value), updatedAt := now)]
                            else old(users)
    {
      var h := HashPassword(password, bcrypt);
      if h.Fail? {
        return Some(h.err);
      }
      if fault.Some? {
        return Some(Translate(Foreign(fault.value)));
      }
      if id in users {
        RowUpdateKeepsValid(users, keys, id, users[id].(pwdHash := Some(h.value), updatedAt := now));
        users := users[id := users[id].(pwdHash := Some(h.value), updatedAt := now)];
      }
      err := None;
    }

    /** `SetUserData`: replaces the profile data and the update time of the
        row with that id, if there is one. */
    method SetUserData(id: string, data: map<string, Value>, now: Time, fault: Option<Foreign>) returns (err: Option<Err>)
      requires Valid()
      modifies this
      ensures Valid() && keys == old(keys)
      ensures fault.Some? ==> err == Some(Translate(Foreign(fault.value))) && users == old(users)
      ensures fault.None? ==>
                err.None?
                && users == if id in old(users) then old(users)[id := old(users)[id].(data := data, updatedAt := now)] else old(users)
    {
      if fault.Some? {
        return Some(Translate(Foreign(fault.value)));
      }
      if id in users {
        RowUpdateKeepsValid(users, keys, id, users[id].(data := data, updatedAt := now));
        users := users[id := users[id].(data := data, updatedAt := now)];
      }
      err := None;
    }
  }
}
