/** The sentinel tables of core/errors/errors.go and pkg/errors/errors.go,
    `E` (any error as an `Error`) and the in-order `OneOf` search. Both
    files have the same shape; the package argument selects whose `Error`
    type the sentinel has. */
module Sentinels {
  import opened Base
  import opened Errors

  datatype Kind = NotFound | Conflict | Forbidden | Throttled | MissingAuth | Unsupported | InvalidInput | InternalIssue

  function Mk(code: string, status: int): Error
  {
    Error(code, None, status, map[], "")
  }

  /** core/errors/errors.go's table. */
  function CoreTable(k: Kind): Error
  {
    match k
    case NotFound => Mk("not_found", 404)
    case Conflict => Mk("conflict", 409)
    case Forbidden => Mk("forbidden", 403)
    case Throttled => Mk("throttled", 429)
    case MissingAuth => Mk("missing_auth", 401)
    case Unsupported => Mk("unsupported", 422)
    case InvalidInput => Mk("invalid_input", 400)
    case InternalIssue => Mk("internal_issue", 500)
  }

  /** pkg/errors/errors.go's table. */
  function PkgTable(k: Kind): Error
  {
    match k
    case NotFound => Mk("not_found", 404)
    case Conflict => Mk("conflict", 409)
    case Forbidden => Mk("forbidden", 403)
    case Throttled => Mk("throttled", 429)
    case MissingAuth => Mk("missing_auth", 401)
    case Unsupported => Mk("unsupported", 422)
    case InvalidInput => Mk("invalid_input", 400)
    case InternalIssue => Mk("internal_issue", 500)
  }

  function Sentinel(p: Pkg, k: Kind): Error
  {
    if p == CorePkg then CoreTable(k) else PkgTable(k)
  }

  /** The sentinel as an `error` value. */
  function S(p: Pkg, k: Kind): Err
  {
    Forge(p, Sentinel(p, k))
  }

  /** Shorthands for the builders applied to a sentinel. */
  function SHint(p: Pkg, k: Kind, hint: string): Err { Forge(p, Hintf(Sentinel(p, k), hint)) }
  function SCoded(p: Pkg, k: Kind, code: string): Err { Forge(p, Coded(Sentinel(p, k), code, [])) }
  function SCodedHint(p: Pkg, k: Kind, code: string, hint: string): Err { Forge(p, Hintf(Coded(Sentinel(p, k), code, []), hint)) }
  function SCause(p: Pkg, k: Kind, c: Err): Err { Forge(p, CausedBy(Sentinel(p, k), Some(c))) }

  /** `errToken`, declared alike in the session restorers of auth/,
      builtin/jwtauth and builtin/pgbase: `MissingAuth` re-coded
      "invalid_token". */
  function ErrToken(p: Pkg): (e: Error)
    ensures e.code == "invalid_token" && e.status == 401
  {
    Coded(Sentinel(p, MissingAuth), "invalid_token", [])
  }

  /** The two tables carry the same codes and statuses, and codes are
      pairwise distinct and never empty. */
  lemma {:induction false} TablesAgree(k: Kind, k': Kind)
    ensures CoreTable(k) == PkgTable(k)
    ensures CoreTable(k).code != ""
    ensures k != k' ==> CoreTable(k).code != CoreTable(k').code
    ensures k != k' ==> CoreTable(k).status != CoreTable(k').status
  {
    match k
    case NotFound =>
    case Conflict =>
    case Forbidden =>
    case Throttled =>
    case MissingAuth =>
    case Unsupported =>
    case InvalidInput =>
    case InternalIssue =>
  }

  /** Under `Is`, each sentinel matches exactly itself among the sentinels
      of its package. */
  lemma {:induction false} SentinelMatchesOnlyItself(p: Pkg, k: Kind, k': Kind)
    ensures Is(S(p, k), S(p, k')) <==> k == k'
  {
    TablesAgree(k, k');
  }

  /** `E`: an `Error` of the package's own type is returned as it is; any
      other error becomes an internal issue caused by it. */
  function E(p: Pkg, err: Err): (r: Error)
    ensures err.Forge? && err.pkg == p ==> r == err.e
    ensures !(err.Forge? && err.pkg == p) ==> r.code == "internal_issue" && r.status == 500 && r.cause == Some(err)
  {
    if err.Forge? && err.pkg == p then err.e else CausedBy(Sentinel(p, InternalIssue), Some(err))
  }

  /** What `OneOf` decides: some element matches under `Is`. */
  predicate AnyIs(err: Err, others: seq<Err>)
  {
    exists i :: 0 <= i < |others| && Is(err, others[i])
  }

  /** `OneOf`: checks the candidates in order and stops at the first match. */
  method OneOf(err: Err, others: seq<Err>) returns (found: bool)
    ensures found <==> AnyIs(err, others)
  {
    var i := 0;
    while i < |others|
      invariant 0 <= i <= |others|
      invariant forall j :: 0 <= j < i ==> !Is(err, others[j])
    {
      if Is(err, others[i]) {
        return true;
      }
      i := i + 1;
    }
    return false;
  }

  /** `OneOf` over a list of one or two candidates. */
  lemma {:induction false} AnyIsOne(err: Err, a: Err)
    ensures AnyIs(err, [a]) <==> Is(err, a)
  {
    assert [a][0] == a;
  }

  lemma {:induction false} AnyIsTwo(err: Err, a: Err, b: Err)
    ensures AnyIs(err, [a, b]) <==> Is(err, a) || Is(err, b)
  {
    assert [a, b][0] == a && [a, b][1] == b;
  }

  lemma {:induction false} AnyIsThree(err: Err, a: Err, b: Err, c: Err)
    ensures AnyIs(err, [a, b, c]) <==> Is(err, a) || Is(err, b) || Is(err, c)
  {
    assert [a, b, c][0] == a && [a, b, c][1] == b && [a, b, c][2] == c;
  }

  /** A sentinel re-coded with a code of no sentinel matches none of its
      package's sentinels: `MissingAuth.Coded("invalid_token")` is not
      `MissingAuth`. */
  lemma {:induction false} RecodedMatchesNoSentinel(p: Pkg, k: Kind, code: string, hint: string, k': Kind)
    requires code != Sentinel(p, k).code
    ensures !Is(SCodedHint(p, k, code, hint), S(p, k'))
  {
    TablesAgree(k, k');
  }

  /** An error of the other package matches a sentinel exactly when it is
      internal; so a pkg/errors `NotFound` is not a core/errors `NotFound`. */
  lemma {:induction false} CrossPackageMismatch(e: Error, k: Kind)
    ensures Is(Forge(PkgPkg, e), S(CorePkg, k)) <==> e.status == 500
    ensures Is(Forge(CorePkg, e), S(PkgPkg, k)) <==> e.status == 500
  {
  }
}
