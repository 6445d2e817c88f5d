/** auth/utils.go: the request token extractor and the translation of
    database errors into pkg/errors values. */
module AuthUtils {
  import opened Base
  import opened Errors
  import opened Sentinels
  import opened Http

  const BearerPrefix: string := "Bearer "
  const HeaderAuthz: string := "Authorization"

  /** `extractToken`: the text after an exact, case-sensitive "Bearer "
      prefix of the Authorization header, else the named cookie's value,
      trimmed; "" when neither is there. */
  function ExtractToken(r: Request, cookieName: string): (t: string)
    ensures HasPrefix(HeaderGet(r, HeaderAuthz), BearerPrefix) ==>
              t == TrimSpace(HeaderGet(r, HeaderAuthz)[|BearerPrefix|..])
    ensures !HasPrefix(HeaderGet(r, HeaderAuthz), BearerPrefix) && cookieName !in r.cookies ==> t == ""
    ensures (!HasPrefix(HeaderGet(r, HeaderAuthz), BearerPrefix) && cookieName in r.cookies) ==>
              t == TrimSpace(r.cookies[cookieName])
  {
    var authH := HeaderGet(r, HeaderAuthz);
    if HasPrefix(authH, BearerPrefix) then TrimSpace(authH[|BearerPrefix|..])
    else if cookieName !in r.cookies then ""
    else TrimSpace(r.cookies[cookieName])
  }

  /** The extracted token never carries surrounding white space. */
  lemma {:induction false} ExtractTokenTrimmed(r: Request, cookieName: string)
    ensures TrimSpace(ExtractToken(r, cookieName)) == ExtractToken(r, cookieName)
  {
    var authH := HeaderGet(r, HeaderAuthz);
    if HasPrefix(authH, BearerPrefix) {
      TrimSpaceIdempotent(authH[|BearerPrefix|..]);
    } else if cookieName in r.cookies {
      TrimSpaceIdempotent(r.cookies[cookieName]);
    }
  }

  /** Round trip: a trimmed token sent as "Bearer <token>" is what comes
      out, whatever cookies the request carries. */
  lemma {:induction false} BearerRoundTrip(token: string, r: Request, cookieName: string)
    requires TrimSpace(token) == token
    requires HeaderGet(r, HeaderAuthz) == BearerPrefix + token
    ensures ExtractToken(r, cookieName) == token
  {
    assert (BearerPrefix + token)[..|BearerPrefix|] == BearerPrefix;
    assert (BearerPrefix + token)[|BearerPrefix|..] == token;
  }

  /** The header prefix is case-sensitive: "bearer " falls back to the
      cookie. */
  lemma {:induction false} LowerCaseBearerFallsBack(r: Request, cookieName: string)
    requires HasPrefix(HeaderGet(r, HeaderAuthz), "bearer ")
    requires cookieName !in r.cookies
    ensures ExtractToken(r, cookieName) == ""
  {
    assert HeaderGet(r, HeaderAuthz)[0] == 'b';
  }

  // ------------------------------------------------------ error translation

  const UniqueViolation: string := "23505"
  const NoData: string := "02000"

  /** The error `translateErr` makes of a non-nil error. The no-rows test
      is the standard `errors.Is`, so it also holds for any internal
      (status 500) forge error; the `PgError` test sees only a direct
      `*pgconn.PgError`. */
  function Translate(e: Err): (r: Err)
    ensures r.Forge? && r.pkg == PkgPkg
    ensures e == Foreign(PgxNoRows) || e == Foreign(SqlNoRows) ==> r == SCoded(PkgPkg, NotFound, "not_found")
    ensures e.Foreign? && e.f.PgError? && e.f.code == UniqueViolation ==> r == SHint(PkgPkg, Conflict, e.f.message)
    ensures e.Foreign? && e.f.PgError? && e.f.code == NoData ==> r == SHint(PkgPkg, NotFound, e.f.message)
    ensures e.Foreign? && e.f.Opaque? ==> r == SCause(PkgPkg, InternalIssue, e)
  {
    if Is(e, Foreign(PgxNoRows)) || Is(e, Foreign(SqlNoRows)) then SCoded(PkgPkg, NotFound, "not_found")
    else if e.Foreign? && e.f.PgError? && e.f.code == UniqueViolation then SHint(PkgPkg, Conflict, e.f.message)
    else if e.Foreign? && e.f.PgError? && e.f.code == NoData then SHint(PkgPkg, NotFound, e.f.message)
    else SCause(PkgPkg, InternalIssue, e)
  }

  /** `translateErr`: nil stays nil; anything else is translated. */
  function TranslateErr(err: Option<Err>): (r: Option<Err>)
    ensures r.None? <==> err.None?
    ensures err.Some? ==> r == Some(Translate(err.value))
  {
    if err.None? then None else Some(Translate(err.value))
  }

  /** How the translated errors match the pkg/errors sentinels: no-rows and
      no-data are `NotFound`, a unique violation is `Conflict`, and any
      other database error is an `InternalIssue` that matches none of
      `NotFound` and `Conflict`. */
  lemma {:induction false} TranslateMatches(e: Err)
    ensures (e == Foreign(PgxNoRows) || e == Foreign(SqlNoRows)
             || (e.Foreign? && e.f.PgError? && e.f.code == NoData))
              ==> Is(Translate(e), S(PkgPkg, NotFound))
    ensures e.Foreign? && e.f.PgError? && e.f.code == UniqueViolation ==> Is(Translate(e), S(PkgPkg, Conflict))
    ensures (e.Foreign? && (e.f.Opaque? || (e.f.PgError? && e.f.code != UniqueViolation && e.f.code != NoData)))
              ==> Is(Translate(e), S(PkgPkg, InternalIssue))
                  && !Is(Translate(e), S(PkgPkg, NotFound)) && !Is(Translate(e), S(PkgPkg, Conflict))
  {
  }

  /** A translated no-rows error is a pkg/errors value, so it does not
      match the core/errors `NotFound` sentinel. */
  lemma {:induction false} NoRowsIsNotCoreNotFound()
    ensures !Is(Translate(Foreign(PgxNoRows)), S(CorePkg, NotFound))
  {
    CrossPackageMismatch(Translate(Foreign(PgxNoRows)).e, NotFound);
  }
}
