/**
 * The API service (src/services/api.ts): each method posts or gets through the HTTP wrapper and
 * classifies the uniform response by a chain of guarded returns. The transport's answer is a
 * parameter, so each method is a function of its arguments and of that answer.
 */
module Api {
  import opened Wrappers
  import opened Text
  import Http

  /** The backend's envelope `BackendResponse<T>`: a business code, a message and a payload. */
  datatype BackendResponse<T> = BackendResponse(code: int, message: Option<string>, data: Option<T>)

  /** `TsxGenerationData`; only `tsx_code` is read. */
  datatype TsxGenerationData = TsxGenerationData(tsxCode: Option<string>)

  /** `HealthCheckData`; only `status` is read. */
  datatype HealthCheckData = HealthCheckData(status: Option<string>)

  /** `FetchDataResponse`; only `operation_type` is read, the title stands for the rest of the payload. */
  datatype FetchDataResponse = FetchDataResponse(operationType: Option<string>, title: string)

  /** The `ApiResponse` of the TSX generation methods. */
  datatype GenerateResult = GenerateResult(success: bool, tsxCode: string, message: string, error: Option<string>)

  /** The JSON body of a `/generate_tsx` request. */
  datatype GenerateBody<D> = GenerateBody(data: D, prompt: Option<string>)

  /** A request as handed to the HTTP wrapper. */
  datatype Request<D> = Request(verb: Http.Verb, url: string, body: D)

  /** A call: the request it sent and what it resolved to. */
  datatype Call<D, R> = Call(request: Request<D>, result: R)

  /**
   * A payload the server may send as JSON `null`, as the whole body or as a uniform body's
   * `data`; `null` and an absent field send the generation methods down different error texts.
   */
  datatype Nullable<T> = Null | NonNull(value: T)

  type TsxAnswer = Http.Transport<Nullable<BackendResponse<TsxGenerationData>>>

  const TransportFailed := "请求失败，请检查网络连接"
  const GenerationFailed := "生成TSX代码失败"
  const BadFormat := "响应数据格式错误"
  const InvalidFormatError := "Invalid response format"
  const Generated := "TSX代码生成成功"
  const NetworkRequestFailed := "网络请求失败"
  const UnknownError := "未知错误"

  /**
   * The `TypeError`s V8 raises for `backendData.code` when the wrapper reported success without a
   * `data` field, or with `data` null; they are the only exceptions the classification can hit,
   * and land in `catch`.
   */
  const UndefinedDataError := "Cannot read properties of undefined (reading 'code')"
  const NullDataError := "Cannot read properties of null (reading 'code')"

  /**
   * The classification shared by `generateTsxCode` and `generateTsxWithData`: transport failure,
   * then a code other than 200, then a missing or empty `data`/`tsx_code`, checked in that order;
   * success exactly when all three pass.
   */
  function ClassifyGeneration(r: Http.ApiResponse<Nullable<BackendResponse<TsxGenerationData>>>): (g: GenerateResult)
    ensures g.success <==>
      r.success && r.data.Some? && r.data.value.NonNull? && r.data.value.value.code == 200 &&
      r.data.value.value.data.Some? && Truthy(r.data.value.value.data.value.tsxCode)
    ensures !g.success ==> g.tsxCode == ""
    ensures g.success ==> g.tsxCode == r.data.value.value.data.value.tsxCode.value && g.tsxCode != ""
    ensures g.success ==> g.message == OrElse(r.data.value.value.message, Generated) && g.error.None?
    ensures !r.success ==> g.message == OrElse(r.error, TransportFailed) && g.error == r.error
    ensures r.success && r.data.None? ==> g.message == NetworkRequestFailed && g.error == Some(UndefinedDataError)
    ensures r.success && r.data == Some(Null) ==> g.message == NetworkRequestFailed && g.error == Some(NullDataError)
    ensures r.success && r.data.Some? && r.data.value.NonNull? && r.data.value.value.code != 200 ==>
      g.message == OrElse(r.data.value.value.message, GenerationFailed) && g.error == r.data.value.value.message
    ensures r.success && r.data.Some? && r.data.value.NonNull? && r.data.value.value.code == 200 && !g.success ==>
      g.message == BadFormat && g.error == Some(InvalidFormatError)
  {
    if !r.success then
      GenerateResult(false, "", OrElse(r.error, TransportFailed), r.error)
    else match r.data
      case None =>
        // `backendData.code` on `undefined` throws; the `catch` reports it
        CaughtGeneration(Http.ErrorInstance(UndefinedDataError))
      case Some(Null) =>
        // and likewise on `null`
        CaughtGeneration(Http.ErrorInstance(NullDataError))
      case Some(NonNull(backend)) =>
        if backend.code != 200 then
          GenerateResult(false, "", OrElse(backend.message, GenerationFailed), backend.message)
        else if backend.data.None? || !Truthy(backend.data.value.tsxCode) then
          GenerateResult(false, "", BadFormat, Some(InvalidFormatError))
        else
          GenerateResult(true, backend.data.value.tsxCode.value, OrElse(backend.message, Generated), None)
  }

  /** The `catch` arm of the generation methods. */
  function CaughtGeneration(thrown: Http.Thrown): (g: GenerateResult)
    ensures !g.success && g.tsxCode == "" && g.message == NetworkRequestFailed
    ensures g.error == Some(if thrown.ErrorInstance? then thrown.message else UnknownError)
  {
    GenerateResult(false, "", NetworkRequestFailed, Some(if thrown.ErrorInstance? then thrown.message else UnknownError))
  }

  /** `generateTsxCode(message)`: posts the trimmed message with no custom prompt. */
  function GenerateTsxCode(message: string, answer: TsxAnswer): (c: Call<GenerateBody<string>, GenerateResult>)
    ensures c.request == Request(Http.Post, "/generate_tsx", GenerateBody(Trim(message), None))
    ensures c.result == ClassifyGeneration(Http.Send(Http.Post, "/generate_tsx", answer))
  {
    var request := Request(Http.Post, "/generate_tsx", GenerateBody(Trim(message), None));
    Call(request, ClassifyGeneration(Http.Send(request.verb, request.url, answer)))
  }

  /** `generateTsxWithData(data, customPrompt)`: posts the data unchanged with the given prompt. */
  function GenerateTsxWithData<D>(data: D, customPrompt: Option<string>, answer: TsxAnswer): (c: Call<GenerateBody<D>, GenerateResult>)
    ensures c.request == Request(Http.Post, "/generate_tsx", GenerateBody(data, customPrompt))
    ensures c.result == ClassifyGeneration(Http.Send(Http.Post, "/generate_tsx", answer))
  {
    var request := Request(Http.Post, "/generate_tsx", GenerateBody(data, customPrompt));
    Call(request, ClassifyGeneration(Http.Send(request.verb, request.url, answer)))
  }

  /** Both generation methods classify the same answer identically; only the request body differs. */
  lemma GenerationMethodsAgree<D>(message: string, data: D, prompt: Option<string>, answer: TsxAnswer)
    ensures GenerateTsxCode(message, answer).result == GenerateTsxWithData(data, prompt, answer).result
    ensures GenerateTsxWithData(Trim(message), None, answer).request == GenerateTsxCode(message, answer).request
  {
  }

  /**
   * When the transport fails, the user sees the interceptor's text: it is never empty, so the
   * fallback message of the generation methods is never used on that path.
   */
  lemma TransportFailureShowsHandledError(message: string, e: Http.AxiosError)
    ensures var g := GenerateTsxCode(message, Http.Failed(e)).result;
      !g.success && g.tsxCode == "" && g.message == Http.HandleError(e) && g.error == Some(Http.HandleError(e))
  {
    Http.FailureCarriesHandledMessage<Nullable<BackendResponse<TsxGenerationData>>>(Http.Post, "/generate_tsx", e);
  }

  /** A plain body with code 200 and a non-empty `tsx_code` is a success carrying that code. */
  lemma PlainAnswerWithCodeSucceeds(message: string, code: string, backendMessage: Option<string>)
    requires code != ""
    ensures var g := GenerateTsxCode(message,
                Http.Received(Http.Plain(NonNull(BackendResponse(200, backendMessage, Some(TsxGenerationData(Some(code)))))))).result;
      g.success && g.tsxCode == code && g.message == OrElse(backendMessage, Generated)
  {
  }

  /**
   * A JSON `null` body is wrapped as a success with `data` null, so reading its code throws and the
   * `catch` reports V8's text for `null`; a uniform success without `data` reports the one for
   * `undefined`.
   */
  lemma MissingPayloadIsCaught(message: string, backendMessage: Option<string>)
    ensures var g := GenerateTsxCode(message, Http.Received(Http.Plain(Null))).result;
      !g.success && g.message == NetworkRequestFailed && g.error == Some(NullDataError)
    ensures var g := GenerateTsxCode(message, Http.Received(Http.Uniform(Http.ApiResponse(true, None, backendMessage, None)))).result;
      !g.success && g.message == NetworkRequestFailed && g.error == Some(UndefinedDataError)
  {
  }

  /** `checkHealth`: true exactly when the transport succeeded, the code is 200 and `data.status` is "healthy". */
  function CheckHealth(answer: Http.Transport<BackendResponse<HealthCheckData>>): (healthy: bool)
    ensures var r := Http.Send(Http.Get, "/health_check", answer);
      healthy <==> r.success && r.data.Some? && r.data.value.code == 200 &&
                   r.data.value.data.Some? && r.data.value.data.value.status == Some("healthy")
  {
    var r := Http.Send(Http.Get, "/health_check", answer);
    if !r.success then false
    else match r.data
      case None => false  // `backendData.code` on `undefined` throws; the `catch` answers false
      case Some(backend) =>
        backend.code == 200 && backend.data.Some? && backend.data.value.status == Some("healthy")
  }

  /** `fetchData`: the backend envelope unchanged when transport, code and `operation_type` all check out, otherwise `null`. */
  function FetchData(userInput: string, answer: Http.Transport<BackendResponse<FetchDataResponse>>): (c: Call<string, Option<BackendResponse<FetchDataResponse>>>)
    ensures c.request == Request(Http.Post, "/fetch_data", userInput)
    ensures var r := Http.Send(Http.Post, "/fetch_data", answer);
      c.result.Some? <==> r.success && r.data.Some? && r.data.value.code == 200 &&
                          r.data.value.data.Some? && Truthy(r.data.value.data.value.operationType)
    ensures c.result.Some? ==> Http.Send(Http.Post, "/fetch_data", answer).data == c.result
  {
    var r := Http.Send(Http.Post, "/fetch_data", answer);
    var result :=
      if !r.success then None
      else match r.data
        case None => None  // the `catch` answers null
        case Some(backend) =>
          if backend.code != 200 then None
          else if backend.data.None? || !Truthy(backend.data.value.operationType) then None
          else Some(backend);
    Call(Request(Http.Post, "/fetch_data", userInput), result)
  }
}
