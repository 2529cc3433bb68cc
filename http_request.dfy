/**
 * The decision logic of the HTTP client in `utils/http/request.ts`: how the
 * global configuration is updated, which successful responses the response
 * interceptor turns into business errors, how failed requests are
 * classified, how any thrown value becomes an error detail, and which
 * response bodies are accepted as an API response.
 *
 * The transport itself is not modelled: a request's outcome (a response
 * with its status and body, or a failure with or without a response) is a
 * parameter. Response bodies are JSON values.
 */
module Http {
  import opened Wrappers

  /** A parsed JSON value. Numbers are integers in this model. */
  datatype Json =
    | JNull
    | JBool(b: bool)
    | JNum(n: int)
    | JStr(s: string)
    | JArr(items: seq<Json>)
    | JObj(fields: map<string, Json>)

  /** JavaScript truthiness of a JSON value. */
  predicate Truthy(j: Json) {
    match j
    case JNull => false
    case JBool(b) => b
    case JNum(n) => n != 0
    case JStr(s) => s != ""
    case JArr(_) => true
    case JObj(_) => true
  }

  /** The result of reading a property: a value, `undefined`, or a TypeError (reading from null). */
  datatype Access = Value(v: Json) | Undefined | Throws

  /** `j.name`: objects have their own fields; other non-null values have none of the API's fields. */
  function Prop(j: Json, name: string): (r: Access)
    ensures r.Throws? <==> j.JNull?
    ensures r.Value? <==> j.JObj? && name in j.fields
    ensures r.Value? ==> r.v == j.fields[name]
  {
    match j
    case JNull => Throws
    case JObj(fields) => if name in fields then Value(fields[name]) else Undefined
    case _ => Undefined
  }

  /** `j?.name`: like `j.name`, but `undefined` instead of a TypeError on null. */
  function SafeProp(j: Json, name: string): (r: Access)
    ensures !r.Throws?
    ensures !j.JNull? ==> r == Prop(j, name)
  {
    if j.JNull? then Undefined else Prop(j, name)
  }

  /** An access that did not throw, as an optional value (`undefined` is None). */
  function Defined(a: Access): Option<Json> {
    if a.Value? then Some(a.v) else None
  }

  /** `value || fallback` for an error message: a non-empty string message, else the fallback. */
  function MessageOr(a: Access, fallback: string): (r: string)
    ensures a.Value? && a.v.JStr? && a.v.s != "" ==> r == a.v.s
    ensures !(a.Value? && a.v.JStr? && a.v.s != "") ==> r == fallback
  {
    if a.Value? && a.v.JStr? && a.v.s != "" then a.v.s else fallback
  }

  const BusinessFailedMessage: string := "业务处理失败"
  const SessionExpiredMessage: string := "登录已过期，请重新登录"
  const ServerErrorMessage: string := "服务器错误"
  const TimeoutMessage: string := "请求超时"
  const NetworkFailedMessage: string := "网络请求失败"
  const InvalidResponseMessage: string := "无效的响应数据格式"

  /** `ErrorType`. */
  datatype ErrorType = Network | Timeout | Business | Auth | Unknown

  /** An `HttpError`: message, type, whether it carries a response, and its code and data. */
  datatype HttpErrorValue = HttpErrorValue(
    message: string, errorType: ErrorType, hasResponse: bool, code: Option<Json>, data: Option<Json>)

  // ---------------------------------------------------------------------------
  // Configuration
  // ---------------------------------------------------------------------------

  /** `GlobalConfig` without the `onError` callback. */
  datatype GlobalConfig = GlobalConfig(
    baseURL: Option<string>,
    interceptBusinessError: bool,
    successCode: int,
    timeout: int,
    headers: Option<map<string, string>>)

  /** `Partial<GlobalConfig>`: a None field is one the caller did not supply. */
  datatype PartialConfig = PartialConfig(
    baseURL: Option<string>,
    interceptBusinessError: Option<bool>,
    successCode: Option<int>,
    timeout: Option<int>,
    headers: Option<map<string, string>>)

  const NoChanges: PartialConfig := PartialConfig(None, None, None, None, None)

  /** The initial global configuration; `apiUrl` is `EXPO_PUBLIC_API_URL`, possibly unset. */
  function InitialConfig(apiUrl: Option<string>): GlobalConfig {
    GlobalConfig(apiUrl, true, 200, 20000, None)
  }

  /** `{ ...globalConfig, ...config }`: supplied fields replace, omitted fields stay. */
  function MergeConfig(g: GlobalConfig, p: PartialConfig): (r: GlobalConfig)
    ensures p.baseURL.Some? ==> r.baseURL == p.baseURL
    ensures p.baseURL.None? ==> r.baseURL == g.baseURL
    ensures r.interceptBusinessError == p.interceptBusinessError.GetOr(g.interceptBusinessError)
    ensures r.successCode == p.successCode.GetOr(g.successCode)
    ensures r.timeout == p.timeout.GetOr(g.timeout)
    ensures p.headers.Some? ==> r.headers == p.headers
    ensures p.headers.None? ==> r.headers == g.headers
  {
    GlobalConfig(
      if p.baseURL.Some? then p.baseURL else g.baseURL,
      p.interceptBusinessError.GetOr(g.interceptBusinessError),
      p.successCode.GetOr(g.successCode),
      p.timeout.GetOr(g.timeout),
      if p.headers.Some? then p.headers else g.headers)
  }

  /** Two partial configurations applied one after the other, the later one winning. */
  function Overlay(p: PartialConfig, q: PartialConfig): PartialConfig {
    PartialConfig(
      if q.baseURL.Some? then q.baseURL else p.baseURL,
      if q.interceptBusinessError.Some? then q.interceptBusinessError else p.interceptBusinessError,
      if q.successCode.Some? then q.successCode else p.successCode,
      if q.timeout.Some? then q.timeout else p.timeout,
      if q.headers.Some? then q.headers else p.headers)
  }

  /** Updating with nothing changes nothing; updating twice with the same fields is updating once. */
  lemma MergeConfigIdentityAndIdempotent(g: GlobalConfig, p: PartialConfig)
    ensures MergeConfig(g, NoChanges) == g
    ensures MergeConfig(MergeConfig(g, p), p) == MergeConfig(g, p)
  {
  }

  /** Two updates in a row are one update with the later fields overriding the earlier ones. */
  lemma MergeConfigSequential(g: GlobalConfig, p: PartialConfig, q: PartialConfig)
    ensures MergeConfig(MergeConfig(g, p), q) == MergeConfig(g, Overlay(p, q))
  {
  }

  /**
   * The `HttpRequest` singleton's configuration: the global configuration and
   * the defaults of its axios instance.
   */
  class HttpClient {
    var globalConfig: GlobalConfig
    var defaultBaseURL: Option<string>
    var defaultTimeout: int
    var defaultHeaders: map<string, string>

    /** The private constructor; `platform` is `Platform.OS`. */
    constructor (apiUrl: Option<string>, platform: string)
      ensures globalConfig == InitialConfig(apiUrl)
      ensures defaultBaseURL == apiUrl && defaultTimeout == 20000
      ensures defaultHeaders == map["Content-Type" := "application/json", "Platform" := platform]
    {
      globalConfig := InitialConfig(apiUrl);
      defaultBaseURL := apiUrl;
      defaultTimeout := 20000;
      defaultHeaders := map["Content-Type" := "application/json", "Platform" := platform];
    }

    /**
     * `updateConfig(config)`: merges into the global configuration; the
     * axios defaults take a supplied base URL only if it is non-empty, a
     * supplied timeout only if it is non-zero, and merge supplied headers in.
     */
    method UpdateConfig(p: PartialConfig)
      modifies this
      ensures globalConfig == MergeConfig(old(globalConfig), p)
      ensures defaultBaseURL == if p.baseURL.Some? && p.baseURL.value != "" then p.baseURL else old(defaultBaseURL)
      ensures defaultTimeout == if p.timeout.Some? && p.timeout.value != 0 then p.timeout.value else old(defaultTimeout)
      ensures p.headers.Some? ==> defaultHeaders == old(defaultHeaders) + p.headers.value
      ensures p.headers.None? ==> defaultHeaders == old(defaultHeaders)
    {
      globalConfig := MergeConfig(globalConfig, p);
      if p.baseURL.Some? && p.baseURL.value != "" {
        defaultBaseURL := p.baseURL;
      }
      if p.timeout.Some? && p.timeout.value != 0 {
        defaultTimeout := p.timeout.value;
      }
      if p.headers.Some? {
        defaultHeaders := defaultHeaders + p.headers.value;
      }
    }
  }

  // ---------------------------------------------------------------------------
  // The response interceptor
  // ---------------------------------------------------------------------------

  /** The per-request options the interceptors read (`RequestConfig`). */
  datatype RequestConfig = RequestConfig(interceptError: Option<bool>, businessCodes: Option<seq<int>>)

  /** `requestConfig.businessCodes || [successCode]`: an array, even an empty one, is used as given. */
  function AllowedCodes(g: GlobalConfig, rc: RequestConfig): (r: seq<int>)
    ensures rc.businessCodes.Some? ==> r == rc.businessCodes.value
    ensures rc.businessCodes.None? ==> r == [g.successCode]
  {
    if rc.businessCodes.Some? then rc.businessCodes.value else [g.successCode]
  }

  /** `requestConfig.interceptError ?? globalConfig.interceptBusinessError`. */
  function ShouldIntercept(g: GlobalConfig, rc: RequestConfig): (r: bool)
    ensures rc.interceptError.Some? ==> r == rc.interceptError.value
    ensures rc.interceptError.None? ==> r == g.interceptBusinessError
  {
    rc.interceptError.GetOr(g.interceptBusinessError)
  }

  /** `allowedCodes.includes(code)`: only a number can be among the allowed codes. */
  predicate CodeAllowed(allowed: seq<int>, code: Access) {
    code.Value? && code.v.JNum? && code.v.n in allowed
  }

  datatype GateResult =
    | Pass                         // the response goes on to the caller
    | Reject(error: HttpErrorValue)
    | GateTypeError                // reading `code` of a null body threw

  /**
   * The fulfilled branch of the response interceptor. With interception on
   * (the request's own flag, else the global one) a body whose `code` is not
   * among the allowed codes is rejected as a BUSINESS error carrying that
   * code and data; otherwise the response passes. A null body makes the
   * `code` read throw once interception is on.
   */
  function ResponseGate(g: GlobalConfig, rc: RequestConfig, body: Json): (r: GateResult)
    ensures !ShouldIntercept(g, rc) ==> r.Pass?
    ensures r.GateTypeError? <==> ShouldIntercept(g, rc) && body.JNull?
    ensures !body.JNull? ==>
      (r.Reject? <==> ShouldIntercept(g, rc) && !CodeAllowed(AllowedCodes(g, rc), Prop(body, "code")))
    ensures r.Reject? ==> r.error == HttpErrorValue(
      MessageOr(Prop(body, "message"), BusinessFailedMessage), Business, true,
      Defined(Prop(body, "code")), Defined(Prop(body, "data")))
  {
    if !ShouldIntercept(g, rc) then Pass
    else
      var code := Prop(body, "code");
      if code.Throws? then GateTypeError
      else if CodeAllowed(AllowedCodes(g, rc), code) then Pass
      else Reject(HttpErrorValue(
        MessageOr(Prop(body, "message"), BusinessFailedMessage), Business, true,
        Defined(code), Defined(Prop(body, "data"))))
  }

  /** An explicit `interceptError: false` never rejects, whatever the body. */
  lemma InterceptOffNeverRejects(g: GlobalConfig, codes: Option<seq<int>>, body: Json)
    ensures ResponseGate(g, RequestConfig(Some(false), codes), body) == Pass
  {
  }

  /** An explicitly empty `businessCodes` lets no response through while interception is on. */
  lemma EmptyBusinessCodesRejectAll(g: GlobalConfig, intercept: Option<bool>, body: Json)
    requires intercept.GetOr(g.interceptBusinessError)
    ensures !ResponseGate(g, RequestConfig(intercept, Some([])), body).Pass?
  {
  }

  /** Without `businessCodes`, a body carrying the success code passes and one carrying any other number does not. */
  lemma DefaultAllowsOnlySuccessCode(g: GlobalConfig, intercept: Option<bool>, fields: map<string, Json>, n: int)
    requires intercept.GetOr(g.interceptBusinessError)
    ensures ResponseGate(g, RequestConfig(intercept, None), JObj(fields["code" := JNum(n)])).Pass?
      <==> n == g.successCode
  {
  }

  // ---------------------------------------------------------------------------
  // The error interceptor
  // ---------------------------------------------------------------------------

  /** A failed axios request: the response, if one arrived, and the error's `code`. */
  datatype Failure = Failure(response: Option<(int, Json)>, errorCode: string)

  datatype Classified =
    | Classified(error: HttpErrorValue, clearToken: bool)   // rejected with this error; clear the token first?
    | ClassifyTypeError                                     // the interceptor itself threw

  /** The AUTH error of the error interceptor. */
  function AuthError(status: int, body: Json): HttpErrorValue {
    HttpErrorValue(MessageOr(SafeProp(body, "message"), SessionExpiredMessage), Auth, true,
      Some(JNum(status)), Defined(SafeProp(body, "data")))
  }

  /** The BUSINESS error of the error interceptor. */
  function ServerError(status: int, body: Json): HttpErrorValue {
    HttpErrorValue(MessageOr(SafeProp(body, "message"), ServerErrorMessage), Business, true,
      Some(JNum(status)), Defined(SafeProp(body, "data")))
  }

  /** The errors for a failure without a response. */
  function NoResponseError(errorCode: string): (e: HttpErrorValue)
    ensures e.errorType == Timeout <==> errorCode == "ECONNABORTED"
    ensures e.errorType == Network <==> errorCode != "ECONNABORTED"
    ensures !e.hasResponse && e.code.None? && e.data.None?
  {
    if errorCode == "ECONNABORTED" then HttpErrorValue(TimeoutMessage, Timeout, false, None, None)
    else HttpErrorValue(NetworkFailedMessage, Network, false, None, None)
  }

  /** A body code of 10104 means the session has expired. */
  predicate SessionExpiredCode(code: Access) {
    code.Value? && code.v == JNum(10104)
  }

  /**
   * The rejected branch of the response interceptor as written: the body's
   * `code` is read without `?.`, so a null body with a status other than 401
   * makes the interceptor throw a TypeError instead of classifying the failure.
   */
  function ClassifyFailureAsWritten(f: Failure): (r: Classified)
    ensures r.ClassifyTypeError? <==> f.response.Some? && f.response.value.0 != 401 && f.response.value.1.JNull?
  {
    match f.response
    case Some((status, body)) =>
      if status == 401 then Classified(AuthError(status, body), true)
      else
        var code := Prop(body, "code");
        if code.Throws? then ClassifyTypeError
        else if SessionExpiredCode(code) then Classified(AuthError(status, body), true)
        else Classified(ServerError(status, body), false)
    case None => Classified(NoResponseError(f.errorCode), false)
  }

  /**
   * The classification the interceptor evidently intends (reading the code
   * with `?.`, as it already reads `message` and `data`): a failure with a
   * response is AUTH exactly when the status is 401 or the body code is
   * 10104, and only then is the token cleared; every other response is
   * BUSINESS with the status as its code; a failure without a response is
   * TIMEOUT exactly for `ECONNABORTED`, else NETWORK.
   */
  function ClassifyFailure(f: Failure): (r: Classified)
    ensures r.Classified?
    ensures f.response.Some? ==>
      var (status, body) := f.response.value;
      && (r.error.errorType == Auth <==> status == 401 || SessionExpiredCode(SafeProp(body, "code")))
      && (r.error.errorType != Auth ==> r.error.errorType == Business)
      && r.error.code == Some(JNum(status)) && r.error.hasResponse
    ensures f.response.None? ==> r.error == NoResponseError(f.errorCode)
    ensures r.clearToken <==> r.error.errorType == Auth
  {
    match f.response
    case Some((status, body)) =>
      if status == 401 || SessionExpiredCode(SafeProp(body, "code")) then Classified(AuthError(status, body), true)
      else Classified(ServerError(status, body), false)
    case None => Classified(NoResponseError(f.errorCode), false)
  }

  /** The two agree on every failure where the code written can be read. */
  lemma ClassifyFailureAgrees(f: Failure)
    requires !ClassifyFailureAsWritten(f).ClassifyTypeError?
    ensures ClassifyFailureAsWritten(f) == ClassifyFailure(f)
  {
  }

  /** A 500 response with a `null` body: the code as written throws; the intended result is BUSINESS with code 500. */
  lemma NullBodyServerError()
    ensures ClassifyFailureAsWritten(Failure(Some((500, JNull)), "")).ClassifyTypeError?
    ensures ClassifyFailure(Failure(Some((500, JNull)), "")).error
      == HttpErrorValue(ServerErrorMessage, Business, true, Some(JNum(500)), None)
  {
  }

  // ---------------------------------------------------------------------------
  // Error details
  // ---------------------------------------------------------------------------

  /** A value thrown on the way to the caller. */
  datatype Thrown =
    | ThrownHttpError(e: HttpErrorValue)
    | ThrownAxiosError(message: string, response: Option<(int, Json)>, errorCode: string)
    | ThrownOther(message: string)   // a TypeError or any other Error

  /** `ErrorDetail`; `timestamp` is `Date.now()` and is passed in. */
  datatype ErrorDetail = ErrorDetail(
    errorType: ErrorType, message: string, timestamp: int, url: Option<string>,
    code: Option<Json>, data: Option<Json>)

  function MessageOf(t: Thrown): string {
    match t
    case ThrownHttpError(e) => e.message
    case ThrownAxiosError(m, _, _) => m
    case ThrownOther(m) => m
  }

  /**
   * `createErrorDetail(error, url)`: an HttpError keeps its type, code and
   * data; an axios error with a response is AUTH when its status is 401 or
   * 10104 and BUSINESS otherwise, with the status as code and the body as
   * data; an axios error without a response is TIMEOUT for `ECONNABORTED`,
   * else NETWORK; anything else is UNKNOWN. The message is always the
   * thrown value's own.
   */
  function ErrorDetailFor(t: Thrown, url: Option<string>, now: int): (r: ErrorDetail)
    ensures r.message == MessageOf(t) && r.url == url && r.timestamp == now
    ensures t.ThrownHttpError? ==> r.errorType == t.e.errorType && r.code == t.e.code && r.data == t.e.data
    ensures t.ThrownAxiosError? && t.response.Some? ==>
      && (r.errorType == Auth <==> t.response.value.0 in {401, 10104})
      && (r.errorType != Auth ==> r.errorType == Business)
      && r.code == Some(JNum(t.response.value.0)) && r.data == Some(t.response.value.1)
    ensures t.ThrownAxiosError? && t.response.None? ==>
      (r.errorType == Timeout <==> t.errorCode == "ECONNABORTED")
      && (r.errorType != Timeout ==> r.errorType == Network)
      && r.code.None? && r.data.None?
    ensures t.ThrownOther? ==> r.errorType == Unknown && r.code.None? && r.data.None?
  {
    var base := ErrorDetail(Unknown, MessageOf(t), now, url, None, None);
    match t
    case ThrownHttpError(e) => base.(errorType := e.errorType, code := e.code, data := e.data)
    case ThrownAxiosError(_, response, errorCode) =>
      if response.Some? then
        var (status, body) := response.value;
        base.(errorType := if status in [401, 10104] then Auth else Business,
              code := Some(JNum(status)), data := Some(body))
      else if errorCode == "ECONNABORTED" then base.(errorType := Timeout)
      else base.(errorType := Network)
    case ThrownOther(_) => base
  }

  /** `createErrorDetail`: starts from an UNKNOWN detail and fills in the fields the error provides. */
  method CreateErrorDetail(t: Thrown, url: Option<string>, now: int) returns (detail: ErrorDetail)
    ensures detail == ErrorDetailFor(t, url, now)
  {
    detail := ErrorDetail(Unknown, MessageOf(t), now, url, None, None);
    if t.ThrownHttpError? {
      detail := detail.(errorType := t.e.errorType);
      detail := detail.(code := t.e.code);
      detail := detail.(data := t.e.data);
    } else if t.ThrownAxiosError? {
      if t.response.Some? {
        var status := t.response.value.0;
        detail := detail.(errorType := if status == 401 || status == 10104 then Auth else Business);
        detail := detail.(code := Some(JNum(status)));
        detail := detail.(data := Some(t.response.value.1));
      } else if t.errorCode == "ECONNABORTED" {
        detail := detail.(errorType := Timeout);
      } else {
        detail := detail.(errorType := Network);
      }
    }
  }

  // ---------------------------------------------------------------------------
  // Response validation
  // ---------------------------------------------------------------------------

  /**
   * `isValidResponse`: a truthy object with a numeric `code`, a string
   * `message` and a `data` key (of any value).
   */
  predicate IsValidResponse(j: Json) {
    Truthy(j) && j.JObj?
    && "code" in j.fields && j.fields["code"].JNum?
    && "message" in j.fields && j.fields["message"].JStr?
    && "data" in j.fields
  }

  /** `ApiResponse`. */
  datatype ApiResponse = ApiResponse(code: int, message: string, data: Json)

  function EncodeResponse(a: ApiResponse): Json {
    JObj(map["code" := JNum(a.code), "message" := JStr(a.message), "data" := a.data])
  }

  /** Reads an `ApiResponse` out of a body; other fields are ignored. */
  function DecodeResponse(j: Json): (r: Option<ApiResponse>)
    ensures r.Some? <==> IsValidResponse(j)
    ensures r.Some? ==>
      && j.fields["code"] == JNum(r.value.code)
      && j.fields["message"] == JStr(r.value.message)
      && j.fields["data"] == r.value.data
  {
    if IsValidResponse(j) then
      Some(ApiResponse(j.fields["code"].n, j.fields["message"].s, j.fields["data"]))
    else None
  }

  /** Every `ApiResponse` encodes to a valid body that decodes back to it. */
  lemma ResponseRoundTrip(a: ApiResponse)
    ensures IsValidResponse(EncodeResponse(a))
    ensures DecodeResponse(EncodeResponse(a)) == Some(a)
  {
  }

  /** null, arrays and non-objects are never valid responses. */
  lemma NonObjectsInvalid(j: Json)
    requires !j.JObj?
    ensures !IsValidResponse(j) && DecodeResponse(j).None?
  {
  }

  // ---------------------------------------------------------------------------
  // One request, end to end
  // ---------------------------------------------------------------------------

  /** What the transport produced for one request. */
  datatype Transport = Responded(status: int, body: Json) | Failed(failure: Failure)

  /**
   * `get`/`post`/`put`/`delete` after the transport: the response
   * interceptors, the body validation and `handleRequestError`. The
   * error interceptor is the evidently intended `ClassifyFailure`.
   */
  function Fetch(g: GlobalConfig, rc: RequestConfig, t: Transport, url: Option<string>, now: int): (r: Result<ApiResponse, ErrorDetail>)
    ensures r.Ok? ==> t.Responded? && IsValidResponse(t.body) && DecodeResponse(t.body) == Some(r.value)
    ensures t.Failed? ==> r.Err? && r.error.errorType == ClassifyFailure(t.failure).error.errorType
    ensures t.Responded? && ResponseGate(g, rc, t.body).Reject? ==>
      r.Err? && r.error.errorType == Business && r.error.code == Defined(Prop(t.body, "code"))
    ensures t.Responded? && ResponseGate(g, rc, t.body).GateTypeError? ==>
      r.Err? && r.error.errorType == Unknown
    ensures t.Responded? && ResponseGate(g, rc, t.body).Pass? ==>
      (r.Ok? <==> IsValidResponse(t.body))
    ensures t.Responded? && ResponseGate(g, rc, t.body).Pass? && !IsValidResponse(t.body) ==>
      r.Err? && r.error.errorType == Business && r.error.message == InvalidResponseMessage
  {
    match t
    case Failed(f) =>
      Err(ErrorDetailFor(ThrownHttpError(ClassifyFailure(f).error), url, now))
    case Responded(_, body) =>
      match ResponseGate(g, rc, body)
      case GateTypeError =>
        Err(ErrorDetailFor(ThrownOther("Cannot read properties of null (reading 'code')"), url, now))
      case Reject(e) => Err(ErrorDetailFor(ThrownHttpError(e), url, now))
      case Pass =>
        match DecodeResponse(body)
        case Some(a) => Ok(a)
        case None =>
          Err(ErrorDetailFor(ThrownHttpError(HttpErrorValue(InvalidResponseMessage, Business, true, None, None)), url, now))
  }

  /**
   * With the default configuration, a well-formed body carrying the success
   * code is delivered as is, and one carrying another code is a BUSINESS
   * error with that code.
   */
  lemma DefaultFetchOutcome(apiUrl: Option<string>, a: ApiResponse, status: int, url: Option<string>, now: int)
    ensures var r := Fetch(InitialConfig(apiUrl), RequestConfig(None, None), Responded(status, EncodeResponse(a)), url, now);
      (a.code == 200 ==> r == Ok(a))
      && (a.code != 200 ==> r.Err? && r.error.errorType == Business && r.error.code == Some(JNum(a.code)))
  {
    ResponseRoundTrip(a);
  }
}
