/** The parts of `net/http` the core touches, and pkg/httpx/cookies.go.

    A request is reduced to what the core reads from it: header values (by
    canonical name, first value), cookie values (first cookie of a name) and
    query parameters (first value). A response writer records the
    `Set-Cookie` headers written to it, in order.

    JSON and base64 are not modelled: a `CookieCodec` carries them as
    functions, and `CodecSound` states the round trips assumed of them. */
module Http {
  import opened Base
  import opened Errors
  import opened Sentinels

  datatype Request = Request(
    headers: map<string, string>,
    cookies: map<string, string>,
    query: map<string, string>)

  /** `r.Header.Get(name)`: "" when absent. */
  function HeaderGet(r: Request, name: string): string
  {
    if name in r.headers then r.headers[name] else ""
  }

  /** `r.URL.Query().Get(name)` / `r.FormValue(name)`: "" when absent. */
  function QueryGet(r: Request, name: string): string
  {
    if name in r.query then r.query[name] else ""
  }

  /** An `http.Cookie` as the core sets it; `sameSiteLax` is `SameSite: Lax`. */
  datatype Cookie = Cookie(
    name: string,
    value: string,
    path: string,
    expires: Time,
    secure: bool,
    httpOnly: bool,
    sameSiteLax: bool)

  /** An `http.ResponseWriter`, as far as cookies go. */
  class ResponseWriter {
    var setCookies: seq<Cookie>

    constructor ()
      ensures setCookies == []
    {
      setCookies := [];
    }

    /** `http.SetCookie(w, c)`: one more `Set-Cookie` header. */
    method SetCookie(c: Cookie)
      modifies this
      ensures setCookies == old(setCookies) + [c]
    {
      setCookies := setCookies + [c];
    }
  }

  // -------------------------------------------------------------- cookies

  /** `json.Marshal`, `json.Unmarshal` into a value already holding `into`,
      and the standard base64 encoding and decoding. */
  datatype CookieCodec<!T> = CookieCodec(
    toJson: T -> Result<string>,
    fromJson: (string, T) -> Option<T>,
    b64: string -> string,
    unb64: string -> Option<string>)

  /** What is assumed of the codecs: base64 decoding undoes encoding and
      keeps non-empty data non-empty, and a JSON text that marshalling
      produced is not empty and unmarshals back to the marshalled value,
      whatever the target held before. */
  ghost predicate CodecSound<T(!new)>(c: CookieCodec<T>)
  {
    (forall s :: c.unb64(c.b64(s)) == Some(s))
    && (forall s :: s != "" ==> c.b64(s) != "")
    && (forall v :: c.toJson(v).Ok? ==> c.toJson(v).value != "")
    && (forall v, into :: c.toJson(v).Ok? ==> c.fromJson(c.toJson(v).value, into) == Some(v))
  }

  /** `MarshalCookie`: the base64 text of the JSON encoding; a JSON failure
      is a pkg/errors internal issue caused by it. */
  function MarshalCookie<T>(v: T, codec: CookieCodec<T>): (r: Result<string>)
    ensures codec.toJson(v).Fail? ==> r == Fail(SCause(PkgPkg, InternalIssue, codec.toJson(v).err))
    ensures codec.toJson(v).Ok? ==> r == Ok(codec.b64(codec.toJson(v).value))
  {
    match codec.toJson(v)
    case Fail(e) => Fail(SCause(PkgPkg, InternalIssue, e))
    case Ok(data) => Ok(codec.b64(data))
  }

  /** The boolean `UnmarshalCookie` returns and what `into` holds after it. */
  datatype Decoded<T> = Decoded(ok: bool, into: T)

  /** `UnmarshalCookie`: false for a missing or empty cookie; true, with
      `into` untouched, for a value that is not base64; otherwise whether
      JSON decoding into `into` succeeds. */
  function UnmarshalCookie<T>(r: Request, key: string, into: T, codec: CookieCodec<T>): (d: Decoded<T>)
    ensures !d.ok ==> d.into == into
    ensures (key !in r.cookies || r.cookies[key] == "") ==> !d.ok
    ensures key in r.cookies && r.cookies[key] != "" && codec.unb64(r.cookies[key]).None? ==> d == Decoded(true, into)
    ensures (key in r.cookies && r.cookies[key] != "" && codec.unb64(r.cookies[key]).Some?)
              ==> (d.ok <==> codec.fromJson(codec.unb64(r.cookies[key]).value, into).Some?)
  {
    if key !in r.cookies || r.cookies[key] == "" then Decoded(false, into)
    else match codec.unb64(r.cookies[key])
      case None => Decoded(true, into)
      case Some(data) =>
        match codec.fromJson(data, into)
        case None => Decoded(false, into)
        case Some(v) => Decoded(true, v)
  }

  /** Round trip: a cookie holding what `MarshalCookie` produced unmarshals
      back to the marshalled value. */
  lemma {:induction false} CookieRoundTrip<T(!new)>(v: T, into: T, r: Request, key: string, codec: CookieCodec<T>)
    requires CodecSound(codec)
    requires MarshalCookie(v, codec).Ok?
    requires key in r.cookies && r.cookies[key] == MarshalCookie(v, codec).value
    ensures UnmarshalCookie(r, key, into, codec) == Decoded(true, v)
  {
    var data := codec.toJson(v).value;
    assert data != "";
    assert codec.b64(data) != "";
    assert codec.unb64(codec.b64(data)) == Some(data);
    assert codec.fromJson(data, into) == Some(v);
  }
}
