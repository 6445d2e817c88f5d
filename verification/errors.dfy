/** The structured error value of core/errors/error.go: value-copy builders
    (`Coded`, `CausedBy`, `Hintf`), the attribute merge, the message format
    and the code-sensitive `Is` that the standard `errors.Is` delegates to.

    Two Go packages declare an `Error` type of this shape, core/errors and
    pkg/errors; they are distinct Go types, so every error value records
    which package's type it has (`pkg`). Errors from elsewhere (the database
    driver, the JSON decoder, ...) are `Foreign`. */
module Errors {
  import opened Base

  /** The package that declared the dynamic type of an `Error` value. */
  datatype Pkg = CorePkg | PkgPkg

  /** Errors of foreign types that the core inspects or passes along.
      `text` is what their `Error()` method returns. */
  datatype Foreign =
    | PgxNoRows                               // pgx.ErrNoRows
    | SqlNoRows                               // sql.ErrNoRows
    | PgError(code: string, message: string)  // *pgconn.PgError
    | Opaque(text: string)                    // any other error

  /** A Go `error` value. */
  datatype Err = Forge(pkg: Pkg, e: Error) | Foreign(f: Foreign)

  datatype Error = Error(
    code: string,
    cause: Option<Err>,
    status: int,
    attribs: map<string, Value>,
    hint: string)

  const InternalStatus: int := 500

  /** A Go `(T, error)` pair with exactly one side meaningful. */
  datatype Result<+T> = Ok(value: T) | Fail(err: Err)

  // ------------------------------------------------------ attribute merge

  /** The merge `cloneMerge` computes: the base entries, overridden by the
      entries of each later map in turn. */
  function MergeAll(base: map<string, Value>, maps: seq<map<string, Value>>): map<string, Value>
  {
    if maps == [] then base else MergeAll(base, maps[..|maps| - 1]) + maps[|maps| - 1]
  }

  /** A key is in the merge exactly when `base` or some input map has it. */
  lemma {:induction false} MergeAllKeys(base: map<string, Value>, maps: seq<map<string, Value>>, k: string)
    ensures k in MergeAll(base, maps) <==> k in base || exists i :: 0 <= i < |maps| && k in maps[i]
  {
    if maps != [] {
      var init := maps[..|maps| - 1];
      MergeAllKeys(base, init, k);
      assert forall i :: 0 <= i < |init| ==> init[i] == maps[i];
    }
  }

  /** A key's merged value comes from the last input map that has it. */
  lemma {:induction false} MergeAllLast(base: map<string, Value>, maps: seq<map<string, Value>>, k: string, i: nat)
    requires i < |maps| && k in maps[i]
    requires forall j :: i < j < |maps| ==> k !in maps[j]
    ensures k in MergeAll(base, maps) && MergeAll(base, maps)[k] == maps[i][k]
  {
    var n := |maps| - 1;
    if i < n {
      var init := maps[..n];
      assert init[i] == maps[i];
      assert k !in maps[n];
      MergeAllLast(base, init, k, i);
    }
  }

  /** A key no input map has keeps its value from `base`. */
  lemma {:induction false} MergeAllBase(base: map<string, Value>, maps: seq<map<string, Value>>, k: string)
    requires k in base
    requires forall i :: 0 <= i < |maps| ==> k !in maps[i]
    ensures k in MergeAll(base, maps) && MergeAll(base, maps)[k] == base[k]
  {
    if maps != [] {
      var init := maps[..|maps| - 1];
      assert forall i :: 0 <= i < |init| ==> init[i] == maps[i];
      MergeAllBase(base, init, k);
    }
  }

  /** A key is in the merge exactly when some input map has it; its value
      comes from the LAST map that has it, or from `base` when none does. */
  lemma {:induction false} MergeAllLookup(base: map<string, Value>, maps: seq<map<string, Value>>, k: string)
    ensures k in MergeAll(base, maps) <==> k in base || exists i :: 0 <= i < |maps| && k in maps[i]
    ensures forall i :: 0 <= i < |maps| && k in maps[i] && (forall j :: i < j < |maps| ==> k !in maps[j])
              ==> MergeAll(base, maps)[k] == maps[i][k]
    ensures k in base && (forall i :: 0 <= i < |maps| ==> k !in maps[i]) ==> MergeAll(base, maps)[k] == base[k]
  {
    MergeAllKeys(base, maps, k);
    forall i | 0 <= i < |maps| && k in maps[i] && (forall j :: i < j < |maps| ==> k !in maps[j])
      ensures MergeAll(base, maps)[k] == maps[i][k]
    {
      MergeAllLast(base, maps, k, i);
    }
    if k in base && (forall i :: 0 <= i < |maps| ==> k !in maps[i]) {
      MergeAllBase(base, maps, k);
    }
  }

  /** One `for k, v := range m` copy loop of `cloneMerge`: every entry of
      `m` is written into `dst`, overriding what was there. */
  method CopyEntries(dst: map<string, Value>, m: map<string, Value>) returns (res: map<string, Value>)
    ensures res == dst + m
  {
    res := dst;
    var todo := m.Keys;
    while todo != {}
      invariant todo <= m.Keys
      invariant res == dst + map k | k in m.Keys - todo :: m[k]
      decreases todo
    {
      var k :| k in todo;
      res := res[k := m[k]];
      todo := todo - {k};
    }
  }

  /** `cloneMerge`: fills a fresh map from `base`, then from each map of
      `maps` in order. */
  method CloneMerge(base: map<string, Value>, maps: seq<map<string, Value>>) returns (res: map<string, Value>)
    ensures res == MergeAll(base, maps)
  {
    res := CopyEntries(map[], base);
    assert res == base;
    var i := 0;
    while i < |maps|
      invariant 0 <= i <= |maps|
      invariant res == MergeAll(base, maps[..i])
    {
      res := CopyEntries(res, maps[i]);
      assert maps[..i + 1][..i] == maps[..i];
      i := i + 1;
    }
    assert maps[..|maps|] == maps;
  }

  // ------------------------------------------------------------ builders

  /** `clone`: the same error with a fresh, merged attribute map. */
  function Clone(e: Error, withAttribs: seq<map<string, Value>>): (r: Error)
    ensures r.code == e.code && r.cause == e.cause && r.status == e.status && r.hint == e.hint
    ensures r.attribs == MergeAll(e.attribs, withAttribs)
  {
    e.(attribs := MergeAll(e.attribs, withAttribs))
  }

  /** `Coded`: a copy that differs in its code and carries the merged attributes. */
  function Coded(e: Error, code: string, attribs: seq<map<string, Value>>): (r: Error)
    ensures r.code == code
    ensures r.cause == e.cause && r.status == e.status && r.hint == e.hint
    ensures r.attribs == MergeAll(e.attribs, attribs)
  {
    Clone(e, attribs).(code := code)
  }

  /** `CausedBy`: a copy whose cause is `c` (`None` is Go's nil). */
  function CausedBy(e: Error, c: Option<Err>): (r: Error)
    ensures r == e.(cause := c)
  {
    Clone(e, []).(cause := c)
  }

  /** `Hintf`: a copy with the formatted debug hint. */
  function Hintf(e: Error, hint: string): (r: Error)
    ensures r == e.(hint := hint)
  {
    Clone(e, []).(hint := hint)
  }

  // ------------------------------------------------------------- message

  /** `Error()` of any error value. */
  function Text(err: Err): string
  {
    match err
    case Forge(_, e) => Message(e)
    case Foreign(f) => ForeignText(f)
  }

  function ForeignText(f: Foreign): string
  {
    match f
    case PgxNoRows => "no rows in result set"
    case SqlNoRows => "sql: no rows in result set"
    case PgError(code, msg) => "ERROR: " + msg + " (SQLSTATE " + code + ")"
    case Opaque(t) => t
  }

  /** `Error.Error()`: the code, then ": " and the cause's text when there
      is a cause, then ": " and the hint when the hint is not empty. */
  function Message(e: Error): (m: string)
    ensures HasPrefix(m, e.code)
  {
    var withCause := if e.cause.Some? then e.code + ": " + Text(e.cause.value) else e.code;
    if e.hint != "" then withCause + ": " + e.hint else withCause
  }

  /** The message format spelled out for the three shapes of error the
      core produces. */
  lemma {:induction false} MessageShapes(e: Error)
    ensures e.cause.None? && e.hint == "" ==> Message(e) == e.code
    ensures e.cause.None? && e.hint != "" ==> Message(e) == e.code + ": " + e.hint
    ensures e.cause.Some? && e.hint == "" ==> Message(e) == e.code + ": " + Text(e.cause.value)
    ensures e.cause.Some? && e.hint != "" ==> Message(e) == e.code + ": " + Text(e.cause.value) + ": " + e.hint
  {
  }

  // ------------------------------------------------------------ matching

  /** The `Is` method of an `Error` of package `p`: against an `Error` of
      the same type it compares the code (unless the target's is empty)
      and the status; any other target matches only an internal error. */
  function ErrorIs(p: Pkg, e: Error, other: Err): bool
  {
    if other.Forge? && other.pkg == p then
      (other.e.code == "" || other.e.code == e.code) && other.e.status == e.status
    else
      e.status == InternalStatus
  }

  /** The standard `errors.Is(err, target)` for these values: an `Error`
      has a map field, so equality is never tried and its `Is` method
      decides; a foreign error (no `Is`, no `Unwrap`) matches only itself. */
  function Is(err: Err, target: Err): bool
  {
    match err
    case Forge(p, e) => ErrorIs(p, e, target)
    case Foreign(f) => target == Foreign(f)
  }

  /** Against an `Error` of the same type, `Is` holds exactly when the
      target's code is empty or equal and the statuses agree. */
  lemma {:induction false} IsSamePackage(p: Pkg, e: Error, t: Error)
    ensures Is(Forge(p, e), Forge(p, t)) <==> (t.code == "" || t.code == e.code) && t.status == e.status
  {
  }

  /** Against anything that is not an `Error` of its own type, an `Error`
      matches exactly when it is internal (status 500). */
  lemma {:induction false} IsOtherTarget(p: Pkg, e: Error, target: Err)
    requires !(target.Forge? && target.pkg == p)
    ensures Is(Forge(p, e), target) <==> e.status == InternalStatus
  {
  }

  /** Re-coding a sentinel makes it stop matching that sentinel. */
  lemma {:induction false} RecodedDoesNotMatchBase(p: Pkg, e: Error, code: string, attribs: seq<map<string, Value>>)
    requires e.code != "" && code != e.code
    ensures !Is(Forge(p, Coded(e, code, attribs)), Forge(p, e))
  {
  }

  /** `Hintf` and `CausedBy` keep the code and status, so the copy still
      matches the error it was made from. */
  lemma {:induction false} CopiesStillMatch(p: Pkg, e: Error, hint: string, c: Option<Err>)
    ensures Is(Forge(p, Hintf(e, hint)), Forge(p, e))
    ensures Is(Forge(p, CausedBy(e, c)), Forge(p, e))
  {
  }
}
