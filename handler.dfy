/**
 * api/v1/handler.go: the error values the handlers answer with, the error
 * body, and the two query-parameter validators. `strconv.Atoi` is a
 * parameter: a partial function giving the integer or its error text.
 */
module Handler {
  import opened Wrappers
  import opened Text
  import opened Repo
  import opened Http

  const ErrInternalServer: string := "INTERNAL_SERVER_ERROR"
  const ErrEmailExists: string := "EMAIL_EXISTS"
  const ErrCodeExpired: string := "VERIFICATION_CODE_IS_EXPIRED"
  const ErrBadRequest: string := "BAD_REQUEST"
  const ErrUnauthorized: string := "UNAUTHORIZED"
  const ErrWrongEmailOrPass: string := "wrong email or password"
  const ErrWeakPassword: string :=
    "password must contain at least one small letter, one number and be at least 6 characters long"
  /**
   * `ErrUrlUnavailable` is used by the short-link handler but is not among
   * the declared errors; this text stands in for it.
   */
  const ErrUrlUnavailable: string := "URL_UNAVAILABLE"

  /** The text of `err.Error()` for each storage error. */
  function DbErrorText(e: DbError): string
  {
    match e
    case ErrNoRows => "sql: no rows in result set"
    case NegativeOffset => "pq: OFFSET must not be negative"
    case NegativeLimit => "pq: LIMIT must not be negative"
    case NullIntoString(FirstNameColumn) =>
      "sql: Scan error on column index 1, name \"first_name\": converting NULL to string is unsupported"
    case NullIntoString(LastNameColumn) =>
      "sql: Scan error on column index 2, name \"last_name\": converting NULL to string is unsupported"
  }

  /**
   * `errorResponse(err)`: a body whose `Error` is `err.Error()`. A nil error
   * has no `Error()` to call: None is that panic.
   */
  function ErrorResponse(err: Option<string>): (r: Option<Body>)
    ensures r.None? <==> err.None?
    ensures r.Some? ==> r.value.ErrorBody? && r.value.error == err.value
  {
    match err
    case None => None
    case Some(e) => Some(ErrorBody(e))
  }

  /** `strconv.Atoi`: the integer, or the text of its `*NumError`. */
  type Atoi = string -> Result<int, string>

  /** `models.CreateShortUrlRequest` */
  datatype CreateShortUrlRequest = CreateShortUrlRequest(originalUrl: string, maxClicks: int, duration: string)

  /** `models.GetAllParams`: limit and page already narrowed to 32 bits. */
  datatype GetAllParams = GetAllParams(limit: Int32, page: Int32, search: string)

  /**
   * An integer query parameter with a default: the default when the value is
   * absent or empty, otherwise what `Atoi` makes of it.
   */
  function IntParam(query: map<string, string>, key: string, default: int, atoi: Atoi): (r: Result<int, string>)
    ensures Lookup(query, key) == "" ==> r == Ok(default)
    ensures Lookup(query, key) != "" ==> r == atoi(Lookup(query, key))
  {
    if Lookup(query, key) != "" then atoi(Lookup(query, key)) else Ok(default)
  }

  /**
   * `validateUrlParams`: `max_clicks` defaults to 0 and must be an integer;
   * `original_url` and `duration` are copied unchecked.
   */
  function ValidateUrlParams(query: map<string, string>, atoi: Atoi): (r: Result<CreateShortUrlRequest, string>)
    ensures r.Err? <==> Lookup(query, "max_clicks") != "" && atoi(Lookup(query, "max_clicks")).Err?
    ensures r.Err? ==> r.error == atoi(Lookup(query, "max_clicks")).error
    ensures r.Ok? ==> r.value.originalUrl == Lookup(query, "original_url") && r.value.duration == Lookup(query, "duration")
    ensures r.Ok? && Lookup(query, "max_clicks") == "" ==> r.value.maxClicks == 0
    ensures r.Ok? && Lookup(query, "max_clicks") != "" ==> r.value.maxClicks == atoi(Lookup(query, "max_clicks")).value
  {
    match IntParam(query, "max_clicks", 0, atoi)
    case Err(e) => Err(e)
    case Ok(maxClicks) => Ok(CreateShortUrlRequest(Lookup(query, "original_url"), maxClicks, Lookup(query, "duration")))
  }

  /**
   * `validateGetAllParams`: `limit` defaults to 10 and `page` to 1, each must
   * be an integer (the first bad one is reported), both are narrowed with
   * `int32(...)`, and `search` is copied unchanged.
   */
  function ValidateGetAllParams(query: map<string, string>, atoi: Atoi): (r: Result<GetAllParams, string>)
    ensures r.Err? <==> IntParam(query, "limit", 10, atoi).Err? || IntParam(query, "page", 1, atoi).Err?
    ensures r.Err? && IntParam(query, "limit", 10, atoi).Err? ==> r.error == IntParam(query, "limit", 10, atoi).error
    ensures r.Err? && IntParam(query, "limit", 10, atoi).Ok? ==> r.error == IntParam(query, "page", 1, atoi).error
    ensures r.Ok? ==> r.value.search == Lookup(query, "search")
    ensures r.Ok? ==> (r.value.limit - IntParam(query, "limit", 10, atoi).value) % TwoTo32 == 0
    ensures r.Ok? ==> (r.value.page - IntParam(query, "page", 1, atoi).value) % TwoTo32 == 0
  {
    match IntParam(query, "limit", 10, atoi)
    case Err(e) => Err(e)
    case Ok(limit) =>
      match IntParam(query, "page", 1, atoi)
      case Err(e) => Err(e)
      case Ok(page) => Ok(GetAllParams(ToInt32(limit), ToInt32(page), Lookup(query, "search")))
  }

  /** Absent or empty `limit` and `page` give the first page of ten. */
  lemma {:induction false} GetAllParamsDefaults(query: map<string, string>, atoi: Atoi)
    requires Lookup(query, "limit") == "" && Lookup(query, "page") == ""
    ensures ValidateGetAllParams(query, atoi) == Ok(GetAllParams(10, 1, Lookup(query, "search")))
    ensures Offset(1, 10) == 0
  {
    assert ToInt32(10) == 10 && ToInt32(1) == 1;
  }

  /** Integers that fit in 32 bits reach the storage layer unchanged. */
  lemma {:induction false} GetAllParamsInRange(query: map<string, string>, atoi: Atoi, limit: int, page: int)
    requires IntParam(query, "limit", 10, atoi) == Ok(limit) && IntParam(query, "page", 1, atoi) == Ok(page)
    requires IsInt32(limit) && IsInt32(page)
    ensures ValidateGetAllParams(query, atoi) == Ok(GetAllParams(limit, page, Lookup(query, "search")))
  {
    assert ToInt32(limit) == limit && ToInt32(page) == page;
  }

  /** A `limit` of 2^32 + 5 is narrowed to 5: the wrap-around of `int32(limit)`. */
  lemma {:induction false} GetAllParamsWrap(query: map<string, string>, atoi: Atoi)
    requires IntParam(query, "limit", 10, atoi) == Ok(TwoTo32 + 5) && IntParam(query, "page", 1, atoi).Ok?
    ensures ValidateGetAllParams(query, atoi).Ok? && ValidateGetAllParams(query, atoi).value.limit == 5
  {
    assert ToInt32(TwoTo32 + 5) == 5;
  }
}
