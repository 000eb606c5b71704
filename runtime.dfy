/**
 * The runtime vocabulary shared by generated and hand-written handlers: requests reduced to
 * path, verb, header map and first form values; responses reduced to status, error text and an
 * optional marshalled answer; `FillValue` and the enum look-up loop.
 */
module Runtime {
  import opened Wrappers
  import opened Strings

  const StatusOK := 200
  const StatusBadRequest := 400
  const StatusForbidden := 403
  const StatusNotFound := 404
  const StatusNotAcceptable := 406
  const StatusInternalServerError := 500

  const AuthHeader := "X-Auth"
  const AuthToken := "100500"
  const MethodPost := "POST"

  /** A request: URL path, HTTP verb, canonical header map, first value of each form key. */
  datatype Request = Request(path: string, verb: string, header: map<string, seq<string>>, form: map<string, string>)

  /** ApiError{HTTPStatus, Err}: a status and the message of the wrapped error. */
  datatype ApiError = ApiError(httpStatus: int, err: string)

  /** A decoded parameter: what FillValue returns inside its interface value. */
  datatype FieldValue = Str(s: string) | Int(i: int)

  /**
   * The error of a business method: an ApiError stored by value (the only kind the
   * handlers' type assertion recognises), or any other error, including a pointer to an ApiError.
   */
  datatype BizError = ApiErrorValue(status: int, msg: string) | OtherError(msg: string)

  datatype BizResult<+A> = Answer(payload: A) | Failed(failure: BizError)

  /** What a handler writes: the status, the "error" member and, on success, the "response" member. */
  datatype Response<+A> = Response(status: int, error: string, payload: Option<A>)

  /** r.FormValue: the first value of the key, "" when the key is absent. */
  function FormValue(r: Request, key: string): string
  {
    if key in r.form then r.form[key] else ""
  }

  /** FillValue: read the lower-cased key; an "int" field must hold a decimal integer. */
  function FillValue(n: string, t: string, r: Request): (v: Result<FieldValue, ApiError>)
    ensures t != "int" ==> v == Ok(Str(FormValue(r, ToLower(n))))
    ensures t == "int" ==> (v.Ok? <==> Atoi(FormValue(r, ToLower(n))).Some?)
    ensures t == "int" && v.Ok? ==> v.value == Int(Atoi(FormValue(r, ToLower(n))).value)
    ensures v.Err? ==> v.error == ApiError(StatusBadRequest, ToLower(n) + " must be " + t)
  {
    var key := ToLower(n);
    var val := FormValue(r, key);
    if t == "int" then
      match Atoi(val)
      case None => Err(ApiError(StatusBadRequest, key + " must be " + t))
      case Some(k) => Ok(Int(k))
    else Ok(Str(val))
  }

  /** The key case does not matter: a name and its lower-cased form read the same value. */
  lemma FillValueCaseInsensitive(n: string, t: string, r: Request)
    ensures FillValue(n, t, r) == FillValue(ToLower(n), t, r)
  {
    ToLowerIdempotent(n);
  }

  /** An integer written in decimal under the lower-cased key is read back exactly. */
  lemma FillValueReadsInt(n: string, r: Request, k: int)
    requires ToLower(n) in r.form && r.form[ToLower(n)] == FormatInt(k)
    ensures FillValue(n, "int", r) == Ok(Int(k))
  {
    AtoiFormatInt(k);
  }

  /** A header list for X-Auth, when present, is non-empty (the handlers index its first value). */
  predicate WellFormedAuth(r: Request)
  {
    AuthHeader in r.header ==> |r.header[AuthHeader]| > 0
  }

  /** The auth gate passes exactly when X-Auth is present and its first value is the token. */
  predicate Authorized(r: Request)
    requires WellFormedAuth(r)
  {
    AuthHeader in r.header && r.header[AuthHeader][0] == AuthToken
  }

  function ErrorResponse<A>(status: int, msg: string): Response<A>
  {
    Response(status, msg, None)
  }

  function UnknownMethod<A>(): Response<A>
  {
    ErrorResponse(StatusNotFound, "unknown method")
  }

  function Unauthorized<A>(): Response<A>
  {
    ErrorResponse(StatusForbidden, "unauthorized")
  }

  function BadMethod<A>(): Response<A>
  {
    ErrorResponse(StatusNotAcceptable, "bad method")
  }

  /** The envelope of a business call: its answer with status 200, or its error message. */
  function BizResponse<A>(res: BizResult<A>): (resp: Response<A>)
    ensures res.Answer? ==> resp == Response(StatusOK, "", Some(res.payload))
    ensures res.Failed? ==> resp.payload.None? && resp.error == res.failure.msg
    ensures res.Failed? && res.failure.ApiErrorValue? ==> resp.status == res.failure.status
    ensures res.Failed? && res.failure.OtherError? ==> resp.status == StatusInternalServerError
  {
    match res
    case Answer(a) => Response(StatusOK, "", Some(a))
    case Failed(e) =>
      ErrorResponse(if e.ApiErrorValue? then e.status else StatusInternalServerError, e.msg)
  }

  /** The findVal loop: scan the allowed values, stopping at the first equal one. */
  method FindValue(options: seq<string>, x: string) returns (found: bool)
    ensures found <==> x in options
  {
    found := false;
    for i := 0 to |options|
      invariant !found && x !in options[..i]
    {
      if options[i] == x {
        found := true;
        break;
      }
    }
    assert options[..|options|] == options;
  }
}
