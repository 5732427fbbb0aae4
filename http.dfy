/**
 * The HTTP client wrapper (src/utils/http.ts): every request resolves, never rejects, to one
 * uniform response record. A body the server already sent in that shape is passed through; any
 * other body is wrapped as a success; every transport failure is turned into a failure whose
 * `error` is the message the response interceptor's `handleError` chose.
 *
 * The transport itself (axios, base URL, time-out, interceptor logging) is replaced by the
 * outcome it produced, a `Transport` value.
 */
module Http {
  import opened Wrappers
  import opened Text

  /** The uniform response shape `ApiResponse<T>`; absent optional fields are `None`. */
  datatype ApiResponse<T> = ApiResponse(success: bool, data: Option<T>, message: Option<string>, error: Option<string>)

  /** A received body: an object that already has a `success` key, or any other payload. */
  datatype Body<T> = Uniform(response: ApiResponse<T>) | Plain(value: T)

  /** `error.response` of an axios error: the status and the `message` field of the error body, if any. */
  datatype ErrorResponse = ErrorResponse(status: int, bodyMessage: Option<string>)

  /**
   * An axios error: the server's response if one arrived, whether a request went out
   * (`error.request`), and the error's own `message`.
   */
  datatype AxiosError = AxiosError(response: Option<ErrorResponse>, requestSent: bool, message: Option<string>)

  /** A value caught by `catch`: an `Error` instance with its message, or anything else. */
  datatype Thrown = ErrorInstance(message: string) | NotAnError

  /** What the transport did with a request: a body arrived, or axios failed. */
  datatype Transport<T> = Received(body: Body<T>) | Failed(failure: AxiosError)

  datatype Verb = Get | Post | Put | Delete

  const NetworkFailure := "网络连接失败，请检查网络"
  const GenericFailure := "请求失败"
  const DefaultErrorText := "请求失败，请检查网络连接"

  /** The fixed messages of `handleError`'s `switch`; `None` for every other status. */
  function StatusMessage(status: int): (r: Option<string>)
    ensures r.Some? <==> status in {400, 401, 403, 404, 500, 502, 503}
    ensures r.Some? ==> r.value != ""
  {
    match status
    case 400 => Some("请求参数错误")
    case 401 => Some("未授权，请重新登录")
    case 403 => Some("拒绝访问")
    case 404 => Some("请求的资源不存在")
    case 500 => Some("服务器内部错误")
    case 502 => Some("网关错误")
    case 503 => Some("服务不可用")
    case _ => None
  }

  /**
   * `handleError`: a response wins over a request-only failure, which wins over the error's
   * own message. The chosen text is never empty.
   */
  function HandleError(e: AxiosError): (r: string)
    ensures e.response.Some? && StatusMessage(e.response.value.status).Some? ==>
      r == StatusMessage(e.response.value.status).value
    ensures e.response.Some? && StatusMessage(e.response.value.status).None? ==>
      r == OrElse(e.response.value.bodyMessage, "请求失败 (" + IntToString(e.response.value.status) + ")")
    ensures e.response.None? && e.requestSent ==> r == NetworkFailure
    ensures e.response.None? && !e.requestSent ==> r == OrElse(e.message, GenericFailure)
    ensures r != ""
  {
    match e.response
    case Some(resp) =>
      (match StatusMessage(resp.status)
       case Some(m) => m
       case None => OrElse(resp.bodyMessage, "请求失败 (" + IntToString(resp.status) + ")"))
    case None =>
      if e.requestSent then NetworkFailure else OrElse(e.message, GenericFailure)
  }

  /** `formatResponse`: a body already in the uniform shape is returned as it is; anything else is wrapped as a success. */
  function FormatResponse<T>(body: Body<T>): (r: ApiResponse<T>)
    ensures body.Uniform? ==> r == body.response
    ensures body.Plain? ==> r.success && r.data == Some(body.value) && r.message == Some("success") && r.error.None?
  {
    match body
    case Uniform(resp) => resp
    case Plain(v) => ApiResponse(true, Some(v), Some("success"), None)
  }

  /** `formatErrorResponse`: always a failure, carrying the caught error's message or a fixed text. */
  function FormatErrorResponse<T>(thrown: Thrown): (r: ApiResponse<T>)
    ensures !r.success && r.data.None? && r.message.None? && r.error.Some?
    ensures thrown.ErrorInstance? ==> r.error == Some(thrown.message)
    ensures thrown.NotAnError? ==> r.error == Some(DefaultErrorText)
  {
    ApiResponse(false, None, None, Some(if thrown.ErrorInstance? then thrown.message else DefaultErrorText))
  }

  /**
   * `get`, `post`, `put` and `delete`, which differ only in the axios method they call. The
   * response interceptor rejects every axios failure with `new Error(handleError(error))`; the
   * method's `catch` turns that into `formatErrorResponse`. So each call resolves to a value for
   * every transport outcome: it never rejects. The verb and the URL only choose the request the
   * transport carries out; once its outcome is given, the result depends on nothing else.
   */
  function Send<T>(verb: Verb, url: string, outcome: Transport<T>): (r: ApiResponse<T>)
    ensures outcome.Received? ==> r == FormatResponse(outcome.body)
    ensures outcome.Failed? ==> r == FormatErrorResponse(ErrorInstance(HandleError(outcome.failure)))
  {
    match outcome
    case Received(body) => FormatResponse(body)
    case Failed(e) => FormatErrorResponse(ErrorInstance(HandleError(e)))
  }

  /** A transport failure always reaches the caller as a failure whose `error` is a non-empty `handleError` text. */
  lemma FailureCarriesHandledMessage<T>(verb: Verb, url: string, e: AxiosError)
    ensures var r := Send<T>(verb, url, Failed(e));
      !r.success && r.data.None? && Truthy(r.error) && r.error.value == HandleError(e)
  {
  }

  /** A call reports `success` false only when the transport failed or the server itself said so. */
  lemma FailureHasACause<T>(verb: Verb, url: string, outcome: Transport<T>)
    ensures !Send(verb, url, outcome).success <==>
      outcome.Failed? || (outcome.body.Uniform? && !outcome.body.response.success)
  {
  }
}
