/** `HTTPClient`: the GET/POST/PUT/DELETE entry points, the three `perform`
    overloads and the response classification behind them.

    The transport is the client's `session`, a function from the request
    handed to a data task to the triple the task's completion handler
    receives. Each call's completion handler is called exactly once, so a
    call is modelled by the single `Completion` it produces: the value
    passed to `completion`, or `Trapped` where the code stops at a
    `fatalError`. Decoders and encoders are passed in as fallible
    functions for the types of the call. */
module Client {
  import opened Foundation
  import opened Methods
  import opened Fields
  import opened Headers
  import opened Errors
  import opened Building

  /** `RequestResult`: a success with the response and the decoded body, or
      a failure with a `RequestError` over the error payload type. */
  datatype RequestResult<+ResponseBody, +ErrorResponse> =
    | Success(response: HTTPURLResponse, body: ResponseBody)
    | Failure(error: RequestError<ErrorResponse>)

  /** What a call ends in: `completion` called once with a result, or the
      process stopped by `fatalError` with its message. */
  datatype Completion<+ResponseBody, +ErrorResponse> =
    | Delivered(result: RequestResult<ResponseBody, ErrorResponse>)
    | Trapped(message: string)

  /** A value `handleError` receives as `Error`: an error raised by the
      transport or a codec, or a `RequestError` over the call's own error
      payload type. */
  datatype Thrown<+ErrorResponse> =
    | Raised(error: Foundation.Error)
    | Rethrown(requestError: RequestError<ErrorResponse>)

  const UnexpectedErrorMessage: string := "Unexpected Error"
  const UnknownErrorMessage: string := "unknow error occurred"

  /** The dynamic type of the errors the untyped `perform` re-throws. */
  const AnyDecodableRequestError: string := "RequestError<AnyDecodable>"

  // ---------------------------------------------------------------------
  // Classification

  /** `validateResponse`: the status lies in the closed range 200...300. */
  function ValidateResponse(response: HTTPURLResponse): (valid: bool)
    ensures valid <==> 200 <= response.statusCode <= 300
  {
    200 <= response.statusCode <= 300
  }

  /** The range is closed at both ends: 300 is a success, 199 and 301 are
      not, and neither are the 400 and 404 of a rejected call. */
  lemma ValidateResponseBounds(url: string, headers: map<string, string>)
    ensures ValidateResponse(HTTPURLResponse(url, 200, headers))
    ensures ValidateResponse(HTTPURLResponse(url, 300, headers))
    ensures !ValidateResponse(HTTPURLResponse(url, 199, headers))
    ensures !ValidateResponse(HTTPURLResponse(url, 301, headers))
    ensures !ValidateResponse(HTTPURLResponse(url, 400, headers))
    ensures !ValidateResponse(HTTPURLResponse(url, 404, headers))
  {
  }

  /** `handleError`: classifies a thrown value by its dynamic type. A
      `URLError`, a `DecodingError` and an `EncodingError` are wrapped in
      their case; a `RequestError` of the call's own payload type is passed
      on unchanged; anything else stops at `fatalError`, so `UnknowError` is
      never produced from a raised error. */
  function HandleError<ResponseBody, ErrorResponse>(thrown: Thrown<ErrorResponse>): (c: Completion<ResponseBody, ErrorResponse>)
    ensures c.Trapped? <==> thrown.Raised? && thrown.error.Other?
    ensures c.Trapped? ==> c.message == UnknownErrorMessage
    ensures c.Delivered? ==> c.result.Failure?
    ensures thrown.Rethrown? ==> c == Delivered(Failure(thrown.requestError))
    ensures thrown.Raised? && c.Delivered? ==> !c.result.error.UnknowError? && !c.result.error.ApiError?
  {
    match thrown
    case Raised(URLErr(u)) => Delivered(Failure(UrlError(u)))
    case Rethrown(e) => Delivered(Failure(e))
    case Raised(DecodingErr(d)) => Delivered(Failure(DecodingError(d)))
    case Raised(EncodingErr(x)) => Delivered(Failure(EncodingError(x)))
    case Raised(Other(_)) => Trapped(UnknownErrorMessage)
  }

  /** A raised transport or codec error is delivered as a failure that
      wraps exactly that error, in the case named after its type, and is
      never an `ApiError`. */
  lemma HandleErrorWrapsRaisedError<ResponseBody, ErrorResponse>(err: Foundation.Error)
    requires !err.Other?
    ensures var c := HandleError<ResponseBody, ErrorResponse>(Raised(err));
      && c.Delivered? && c.result.Failure?
      && Underlying(c.result.error) == Some(err)
      && !c.result.error.ApiError?
      && (c.result.error.UrlError? <==> err.URLErr?)
      && (c.result.error.DecodingError? <==> err.DecodingErr?)
      && (c.result.error.EncodingError? <==> err.EncodingErr?)
  {
  }

  /** Classification is idempotent: re-throwing a delivered error value
      delivers that same error value again. */
  lemma HandleErrorIsIdempotent<ResponseBody, ErrorResponse>(thrown: Thrown<ErrorResponse>)
    requires HandleError<ResponseBody, ErrorResponse>(thrown).Delivered?
    ensures var c := HandleError<ResponseBody, ErrorResponse>(thrown);
      HandleError<ResponseBody, ErrorResponse>(Rethrown(c.result.error)) == c
  {
  }

  /** `handleSuccess`: the response and the decoded body, as a success. */
  function HandleSuccess<ResponseBody, ErrorResponse>(response: HTTPURLResponse, body: ResponseBody)
    : Completion<ResponseBody, ErrorResponse>
  {
    Delivered(Success(response, body))
  }

  /** `proceedResponse`: a valid status decodes the body as the response
      type, any other status decodes it as the error type and reports an
      `ApiError`; a decoder failure goes to `handleError`. */
  function ProceedResponse<ResponseBody, ErrorResponse>(
    response: HTTPURLResponse, body: Bytes,
    decodeBody: Bytes -> Result<ResponseBody, Foundation.Error>,
    decodeError: Bytes -> Result<ErrorResponse, Foundation.Error>)
    : Completion<ResponseBody, ErrorResponse>
  {
    if ValidateResponse(response) then
      match decodeBody(body)
      case Ok(responseBody) => HandleSuccess(response, responseBody)
      case Err(e) => HandleError(Raised(e))
    else
      match decodeError(body)
      case Ok(errorResponse) => HandleError(Rethrown(ApiError(response, errorResponse)))
      case Err(e) => HandleError(Raised(e))
  }

  /** A success is delivered exactly when the status is valid and the body
      decodes as the response type, and then carries the response and the
      decoded body. A `ApiError` is delivered exactly when the status is
      invalid and the body decodes as the error type, and then carries the
      response (so its status) and the decoded error body. A decoding error
      from the decoder the status selects is delivered as that
      `DecodingError`, and the call stops only when that decoder raises an
      error of another type. */
  lemma ProceedResponseOutcome<ResponseBody, ErrorResponse>(
    response: HTTPURLResponse, body: Bytes,
    decodeBody: Bytes -> Result<ResponseBody, Foundation.Error>,
    decodeError: Bytes -> Result<ErrorResponse, Foundation.Error>)
    ensures var c := ProceedResponse(response, body, decodeBody, decodeError);
      && (c.Delivered? && c.result.Success? <==> ValidateResponse(response) && decodeBody(body).Ok?)
      && (c.Delivered? && c.result.Success? ==>
            c.result.response == response && c.result.body == decodeBody(body).value)
      && (c.Delivered? && c.result.Failure? && c.result.error.ApiError? <==>
            !ValidateResponse(response) && decodeError(body).Ok?)
      && (c.Delivered? && c.result.Failure? && c.result.error.ApiError? ==>
            c.result.error.response == response && c.result.error.body == decodeError(body).value)
      && (ValidateResponse(response) && decodeBody(body).Err? && decodeBody(body).error.DecodingErr? ==>
            c == Delivered(Failure(DecodingError(decodeBody(body).error.decodingError))))
      && (!ValidateResponse(response) && decodeError(body).Err? && decodeError(body).error.DecodingErr? ==>
            c == Delivered(Failure(DecodingError(decodeError(body).error.decodingError))))
      && (c.Trapped? <==>
            if ValidateResponse(response) then decodeBody(body).Err? && decodeBody(body).error.Other?
            else decodeError(body).Err? && decodeError(body).error.Other?)
  {
  }

  /** The body `proceedResponse` is given: the task's data, or empty data. */
  function BodyOf(data: Option<Bytes>): Bytes {
    match data
    case None => []
    case Some(d) => d
  }

  /** The completion handler of a data task: a lone error goes to
      `handleError`; an HTTP response goes to `proceedResponse` whatever
      else came with it; every other triple stops at `fatalError`. */
  function Dispatch<ResponseBody, ErrorResponse>(
    task: TaskResult,
    decodeBody: Bytes -> Result<ResponseBody, Foundation.Error>,
    decodeError: Bytes -> Result<ErrorResponse, Foundation.Error>)
    : Completion<ResponseBody, ErrorResponse>
  {
    match (task.data, task.response, task.error)
    case (None, None, Some(error)) => HandleError(Raised(error))
    case (_, Some(HTTPResponse(urlResponse)), _) => ProceedResponse(urlResponse, BodyOf(task.data), decodeBody, decodeError)
    case _ => Trapped(UnexpectedErrorMessage)
  }

  /** A triple with an HTTP response is answered from that response and the
      data (empty when there is none), even if an error came with it; a
      triple with only an error is classified by `handleError`; every other
      triple (data or an error without a response, or a response of another
      protocol) stops with "Unexpected Error". A success is delivered only
      for an HTTP response with a valid status. */
  lemma DispatchOutcome<ResponseBody, ErrorResponse>(
    task: TaskResult,
    decodeBody: Bytes -> Result<ResponseBody, Foundation.Error>,
    decodeError: Bytes -> Result<ErrorResponse, Foundation.Error>)
    ensures var c := Dispatch(task, decodeBody, decodeError);
      && (task.response.Some? && task.response.value.HTTPResponse? ==>
            c == ProceedResponse(task.response.value.http, BodyOf(task.data), decodeBody, decodeError))
      && (task.data.None? && task.response.None? && task.error.Some? ==>
            c == HandleError(Raised(task.error.value)))
      && (!(task.response.Some? && task.response.value.HTTPResponse?) &&
          !(task.data.None? && task.response.None? && task.error.Some?) ==>
            c == Trapped(UnexpectedErrorMessage))
      && (c.Delivered? && c.result.Success? ==>
            task.response == Some(HTTPResponse(c.result.response)) && ValidateResponse(c.result.response))
  {
    ProceedResponseOutcome(if task.response.Some? && task.response.value.HTTPResponse? then task.response.value.http
                           else HTTPURLResponse("", 0, map[]),
                           BodyOf(task.data), decodeBody, decodeError);
  }

  // ---------------------------------------------------------------------
  // The requests `perform` hands to the transport

  /** The request the typed `perform` hands to its data task: with the JSON
      decoder, `Accept` is set to the JSON media type. */
  function TypedRequest(decoderIsJSON: bool, request: URLRequest): URLRequest {
    if decoderIsJSON then SetValue(request, Some(JSONMediaType), Accept) else request
  }

  /** With the JSON decoder the `Accept` header is overwritten with the JSON
      media type, otherwise it is kept; every other header, the URL, the
      method and the body are kept either way. */
  lemma TypedRequestContents(decoderIsJSON: bool, request: URLRequest)
    ensures var sent := TypedRequest(decoderIsJSON, request);
      && Value(sent, Accept) == (if decoderIsJSON then Some(JSONMediaType) else Value(request, Accept))
      && (forall n :: n != "Accept" ==> HTTPHeaderValue(sent, n) == HTTPHeaderValue(request, n))
      && sent.url == request.url && sent.httpMethod == request.httpMethod && sent.httpBody == request.httpBody
  {
  }

  // ---------------------------------------------------------------------
  // The untyped mode, as written and corrected

  /** The untyped `perform`'s completion as written. A success maps the body
      to its `value`. Both failure branches hand `handleError` a
      `RequestError<AnyDecodable>`; its dynamic type is neither `URLError`,
      `DecodingError`, `EncodingError` nor `RequestError<Any>` (a generic
      enum is not converted by a cast between instantiations), so it falls
      into the `fatalError` branch. */
  function AnyResultAsWritten<AnyDecodable, AnyValue>(
    inner: Completion<AnyDecodable, AnyDecodable>, valueOf: AnyDecodable -> AnyValue)
    : Completion<AnyValue, AnyValue>
  {
    match inner
    case Trapped(message) => Trapped(message)
    case Delivered(Success(response, body)) => Delivered(Success(response, valueOf(body)))
    case Delivered(Failure(ApiError(_, _))) => HandleError(Raised(Other(AnyDecodableRequestError)))
    case Delivered(Failure(_)) => HandleError(Raised(Other(AnyDecodableRequestError)))
  }

  /** As written, every failure of the untyped mode stops the process
      instead of reaching the caller: a transport error, a decoding error
      and an `ApiError` alike. */
  lemma AnyResultAsWrittenTrapsOnEveryFailure<AnyDecodable, AnyValue>(
    inner: Completion<AnyDecodable, AnyDecodable>, valueOf: AnyDecodable -> AnyValue)
    requires inner.Delivered? && inner.result.Failure?
    ensures AnyResultAsWritten(inner, valueOf) == Trapped(UnknownErrorMessage)
  {
  }

  /** The untyped `perform`'s completion as intended: a success maps the
      body to its `value`, and a failure is passed on in the same case with
      an `ApiError` payload boxed as a value of the caller's type. */
  function AnyResult<AnyDecodable, AnyValue>(
    inner: Completion<AnyDecodable, AnyDecodable>,
    valueOf: AnyDecodable -> AnyValue, box: AnyDecodable -> AnyValue)
    : Completion<AnyValue, AnyValue>
  {
    match inner
    case Trapped(message) => Trapped(message)
    case Delivered(Success(response, body)) => Delivered(Success(response, valueOf(body)))
    case Delivered(Failure(ApiError(response, body))) => HandleError(Rethrown(ApiError(response, box(body))))
    case Delivered(Failure(error)) => HandleError(Rethrown(MapBody(error, box)))
  }

  /** Corrected, the untyped mode stops only where the typed call beneath
      it stops; a success keeps the response and maps the body to its
      `value`; a failure keeps its case, its response and its wrapped error,
      with an `ApiError` payload boxed. */
  lemma AnyResultKeepsOutcome<AnyDecodable, AnyValue>(
    inner: Completion<AnyDecodable, AnyDecodable>,
    valueOf: AnyDecodable -> AnyValue, box: AnyDecodable -> AnyValue)
    ensures var c := AnyResult(inner, valueOf, box);
      && (c.Trapped? <==> inner.Trapped?)
      && (inner.Trapped? ==> c == Trapped(inner.message))
      && (inner.Delivered? && inner.result.Success? ==>
            c == Delivered(Success(inner.result.response, valueOf(inner.result.body))))
      && (inner.Delivered? && inner.result.Failure? ==>
            c == Delivered(Failure(MapBody(inner.result.error, box))))
  {
  }

  // ---------------------------------------------------------------------
  // What each kind of entry point delivers

  /** A call in the raw `Data` mode: a build error is classified without
      reaching the transport; a built request is handed to the transport
      unchanged and both bodies are decoded as data. */
  function DataCall(session: URLRequest -> TaskResult, built: Result<URLRequest, Foundation.Error>,
                    decodeData: Bytes -> Result<Bytes, Foundation.Error>)
    : Completion<Bytes, Bytes>
  {
    match built
    case Err(e) => HandleError(Raised(e))
    case Ok(request) => Dispatch(session(request), decodeData, decodeData)
  }

  /** A call in the typed mode: a build error is classified without reaching
      the transport; a built request gets the typed `Accept` treatment. */
  function TypedCall<ResponseBody, ErrorResponse>(
    decoderIsJSON: bool, session: URLRequest -> TaskResult, built: Result<URLRequest, Foundation.Error>,
    decodeBody: Bytes -> Result<ResponseBody, Foundation.Error>,
    decodeError: Bytes -> Result<ErrorResponse, Foundation.Error>)
    : Completion<ResponseBody, ErrorResponse>
  {
    match built
    case Err(e) => HandleError(Raised(e))
    case Ok(request) => Dispatch(session(TypedRequest(decoderIsJSON, request)), decodeBody, decodeError)
  }

  /** A call in the untyped mode: a typed call decoding both bodies as
      `AnyDecodable`, then converted by the corrected `AnyResult`. */
  function AnyCall<AnyDecodable, AnyValue>(
    decoderIsJSON: bool, session: URLRequest -> TaskResult, built: Result<URLRequest, Foundation.Error>,
    decodeAny: Bytes -> Result<AnyDecodable, Foundation.Error>,
    valueOf: AnyDecodable -> AnyValue, box: AnyDecodable -> AnyValue)
    : Completion<AnyValue, AnyValue>
  {
    match built
    case Err(e) => HandleError(Raised(e))
    case Ok(request) => AnyResult(Dispatch(session(TypedRequest(decoderIsJSON, request)), decodeAny, decodeAny), valueOf, box)
  }

  /** When the builder throws, `perform` is never reached: the outcome is
      the same for every transport, and an encoding error is delivered as
      that `EncodingError`. */
  lemma BuildFailureSkipsTransport<ResponseBody, ErrorResponse, AnyDecodable, AnyValue>(
    decoderIsJSON: bool, session1: URLRequest -> TaskResult, session2: URLRequest -> TaskResult,
    e: Foundation.Error,
    decodeBody: Bytes -> Result<ResponseBody, Foundation.Error>,
    decodeError: Bytes -> Result<ErrorResponse, Foundation.Error>,
    decodeData: Bytes -> Result<Bytes, Foundation.Error>,
    decodeAny: Bytes -> Result<AnyDecodable, Foundation.Error>,
    valueOf: AnyDecodable -> AnyValue, box: AnyDecodable -> AnyValue)
    ensures TypedCall(decoderIsJSON, session1, Err(e), decodeBody, decodeError)
            == TypedCall(decoderIsJSON, session2, Err(e), decodeBody, decodeError)
    ensures DataCall(session1, Err(e), decodeData) == DataCall(session2, Err(e), decodeData)
    ensures e.EncodingErr? ==>
      TypedCall(decoderIsJSON, session1, Err(e), decodeBody, decodeError) == Delivered(Failure(EncodingError(e.encodingError)))
    ensures AnyCall(decoderIsJSON, session1, Err(e), decodeAny, valueOf, box)
            == AnyCall(decoderIsJSON, session2, Err(e), decodeAny, valueOf, box)
    ensures e.EncodingErr? ==>
      AnyCall(decoderIsJSON, session1, Err(e), decodeAny, valueOf, box) == Delivered(Failure(EncodingError(e.encodingError)))
  {
  }

  /** The raw and untyped `PUT` overloads build a `POST` request and the raw
      and untyped `DELETE` overloads a `GET` request, while the typed ones
      send their own verb. */
  lemma EntryPointVerbs<P>(
    encoderIsJSON: bool, url: string, parameters: Option<P>, encode: P -> Result<Bytes, Foundation.Error>,
    headerFields: Option<HeaderDictionary>)
    ensures var put := BuiltRequestWithBody(encoderIsJSON, url, Post, parameters, encode, headerFields);
      put.Ok? ==> MethodOf(put.value) == Some(Post)
    ensures var put := BuiltRequestWithBody(encoderIsJSON, url, Put, parameters, encode, headerFields);
      put.Ok? ==> MethodOf(put.value) == Some(Put)
    ensures MethodOf(BuiltRequest(url, Get, headerFields)) == Some(Get)
    ensures MethodOf(BuiltRequest(url, Delete, headerFields)) == Some(Delete)
  {
    BuiltRequestWithBodyOutcome(encoderIsJSON, url, Post, parameters, encode, headerFields);
    BuiltRequestWithBodyOutcome(encoderIsJSON, url, Put, parameters, encode, headerFields);
    BuiltRequestContents(url, Get, headerFields);
    BuiltRequestContents(url, Delete, headerFields);
  }

  class HTTPClient {
    /** The builder that turns a call's arguments into a request. */
    var requestBuilder: RequestBuilder
    /** Whether `responseDecoder` is a `JSONDecoder`. */
    var decoderIsJSON: bool
    /** The transport. */
    const session: URLRequest -> TaskResult

    /** `init(session:)`: a fresh builder with the JSON encoder, and the
        JSON decoder. */
    constructor (session: URLRequest -> TaskResult)
      ensures this.session == session
      ensures fresh(requestBuilder) && requestBuilder.encoderIsJSON
      ensures decoderIsJSON
    {
      this.session := session;
      requestBuilder := new RequestBuilder();
      decoderIsJSON := true;
    }

    // -------------------------------------------------------------------
    // perform

    /** `perform(request:completion:)` for raw data: the request goes to the
        transport untouched and both bodies are decoded as data. */
    method PerformData(request: URLRequest, decodeData: Bytes -> Result<Bytes, Foundation.Error>)
      returns (outcome: Completion<Bytes, Bytes>)
      ensures outcome == DataCall(session, Ok(request), decodeData)
    {
      var task := session(request);
      outcome := Dispatch(task, decodeData, decodeData);
    }

    /** The typed `perform(request:completion:)`. */
    method Perform<ResponseBody, ErrorResponse>(
      request: URLRequest,
      decodeBody: Bytes -> Result<ResponseBody, Foundation.Error>,
      decodeError: Bytes -> Result<ErrorResponse, Foundation.Error>)
      returns (outcome: Completion<ResponseBody, ErrorResponse>)
      ensures outcome == TypedCall(decoderIsJSON, session, Ok(request), decodeBody, decodeError)
    {
      var sent := request;
      if decoderIsJSON {
        sent := SetValue(sent, Some(JSONMediaType), Accept);
      }
      var task := session(sent);
      outcome := Dispatch(task, decodeBody, decodeError);
    }

    /** The untyped `perform(request:completion:)`, corrected: the typed
        `perform` over `AnyDecodable`, its result converted by `AnyResult`. */
    method PerformAny<AnyDecodable, AnyValue>(
      request: URLRequest,
      decodeAny: Bytes -> Result<AnyDecodable, Foundation.Error>,
      valueOf: AnyDecodable -> AnyValue, box: AnyDecodable -> AnyValue)
      returns (outcome: Completion<AnyValue, AnyValue>)
      ensures outcome == AnyCall(decoderIsJSON, session, Ok(request), decodeAny, valueOf, box)
    {
      var inner := Perform(request, decodeAny, decodeAny);
      outcome := AnyResult(inner, valueOf, box);
    }

    // -------------------------------------------------------------------
    // GET

    /** `GET` for raw data. */
    method GetData(url: string, headerFields: Option<HeaderDictionary> := None,
                   decodeData: Bytes -> Result<Bytes, Foundation.Error>)
      returns (outcome: Completion<Bytes, Bytes>)
      ensures outcome == DataCall(session, Ok(BuiltRequest(url, HTTPMethod.Get, headerFields)), decodeData)
    {
      var request := requestBuilder.BuildURLRequest(url, HTTPMethod.Get, headerFields);
      outcome := PerformData(request, decodeData);
    }

    /** `GET` for untyped values. */
    method GetAny<AnyDecodable, AnyValue>(
      url: string, headerFields: Option<HeaderDictionary> := None,
      decodeAny: Bytes -> Result<AnyDecodable, Foundation.Error>,
      valueOf: AnyDecodable -> AnyValue, box: AnyDecodable -> AnyValue)
      returns (outcome: Completion<AnyValue, AnyValue>)
      ensures outcome == AnyCall(decoderIsJSON, session, Ok(BuiltRequest(url, HTTPMethod.Get, headerFields)), decodeAny, valueOf, box)
    {
      var request := requestBuilder.BuildURLRequest(url, HTTPMethod.Get, headerFields);
      outcome := PerformAny(request, decodeAny, valueOf, box);
    }

    /** The typed `GET`. */
    method Get<ResponseBody, ErrorResponse>(
      url: string, headerFields: Option<HeaderDictionary> := None,
      decodeBody: Bytes -> Result<ResponseBody, Foundation.Error>,
      decodeError: Bytes -> Result<ErrorResponse, Foundation.Error>)
      returns (outcome: Completion<ResponseBody, ErrorResponse>)
      ensures outcome == TypedCall(decoderIsJSON, session, Ok(BuiltRequest(url, HTTPMethod.Get, headerFields)), decodeBody, decodeError)
    {
      var request := requestBuilder.BuildURLRequest(url, HTTPMethod.Get, headerFields);
      outcome := Perform(request, decodeBody, decodeError);
    }

    // -------------------------------------------------------------------
    // POST

    /** `POST` for raw data. */
    method PostData<Parameters>(
      url: string, parameters: Option<Parameters> := None, encode: Parameters -> Result<Bytes, Foundation.Error>,
      headerFields: Option<HeaderDictionary> := None, decodeData: Bytes -> Result<Bytes, Foundation.Error>)
      returns (outcome: Completion<Bytes, Bytes>)
      ensures outcome == DataCall(session,
        BuiltRequestWithBody(requestBuilder.encoderIsJSON, url, HTTPMethod.Post, parameters, encode, headerFields), decodeData)
    {
      var built := requestBuilder.BuildURLRequestWithBody(url, HTTPMethod.Post, parameters, encode, headerFields);
      if built.Err? {
        outcome := HandleError(Raised(built.error));
        return;
      }
      outcome := PerformData(built.value, decodeData);
    }

    /** `POST` for untyped values. */
    method PostAny<Parameters, AnyDecodable, AnyValue>(
      url: string, parameters: Option<Parameters> := None, encode: Parameters -> Result<Bytes, Foundation.Error>,
      headerFields: Option<HeaderDictionary> := None,
      decodeAny: Bytes -> Result<AnyDecodable, Foundation.Error>,
      valueOf: AnyDecodable -> AnyValue, box: AnyDecodable -> AnyValue)
      returns (outcome: Completion<AnyValue, AnyValue>)
      ensures outcome == AnyCall(decoderIsJSON, session,
        BuiltRequestWithBody(requestBuilder.encoderIsJSON, url, HTTPMethod.Post, parameters, encode, headerFields),
        decodeAny, valueOf, box)
    {
      var built := requestBuilder.BuildURLRequestWithBody(url, HTTPMethod.Post, parameters, encode, headerFields);
      if built.Err? {
        outcome := HandleError(Raised(built.error));
        return;
      }
      outcome := PerformAny(built.value, decodeAny, valueOf, box);
    }

    /** The typed `POST`. */
    method Post<Parameters, ResponseBody, ErrorResponse>(
      url: string, parameters: Option<Parameters> := None, encode: Parameters -> Result<Bytes, Foundation.Error>,
      headerFields: Option<HeaderDictionary> := None,
      decodeBody: Bytes -> Result<ResponseBody, Foundation.Error>,
      decodeError: Bytes -> Result<ErrorResponse, Foundation.Error>)
      returns (outcome: Completion<ResponseBody, ErrorResponse>)
      ensures outcome == TypedCall(decoderIsJSON, session,
        BuiltRequestWithBody(requestBuilder.encoderIsJSON, url, HTTPMethod.Post, parameters, encode, headerFields),
        decodeBody, decodeError)
    {
      var built := requestBuilder.BuildURLRequestWithBody(url, HTTPMethod.Post, parameters, encode, headerFields);
      if built.Err? {
        outcome := HandleError(Raised(built.error));
        return;
      }
      outcome := Perform(built.value, decodeBody, decodeError);
    }

    // -------------------------------------------------------------------
    // PUT

    /** `PUT` for raw data, which builds a `POST` request. */
    method PutData<Parameters>(
      url: string, parameters: Option<Parameters> := None, encode: Parameters -> Result<Bytes, Foundation.Error>,
      headerFields: Option<HeaderDictionary> := None, decodeData: Bytes -> Result<Bytes, Foundation.Error>)
      returns (outcome: Completion<Bytes, Bytes>)
      ensures outcome == DataCall(session,
        BuiltRequestWithBody(requestBuilder.encoderIsJSON, url, HTTPMethod.Post, parameters, encode, headerFields), decodeData)
    {
      var built := requestBuilder.BuildURLRequestWithBody(url, HTTPMethod.Post, parameters, encode, headerFields);
      if built.Err? {
        outcome := HandleError(Raised(built.error));
        return;
      }
      outcome := PerformData(built.value, decodeData);
    }

    /** `PUT` for untyped values, which builds a `POST` request. */
    method PutAny<Parameters, AnyDecodable, AnyValue>(
      url: string, parameters: Option<Parameters> := None, encode: Parameters -> Result<Bytes, Foundation.Error>,
      headerFields: Option<HeaderDictionary> := None,
      decodeAny: Bytes -> Result<AnyDecodable, Foundation.Error>,
      valueOf: AnyDecodable -> AnyValue, box: AnyDecodable -> AnyValue)
      returns (outcome: Completion<AnyValue, AnyValue>)
      ensures outcome == AnyCall(decoderIsJSON, session,
        BuiltRequestWithBody(requestBuilder.encoderIsJSON, url, HTTPMethod.Post, parameters, encode, headerFields),
        decodeAny, valueOf, box)
    {
      var built := requestBuilder.BuildURLRequestWithBody(url, HTTPMethod.Post, parameters, encode, headerFields);
      if built.Err? {
        outcome := HandleError(Raised(built.error));
        return;
      }
      outcome := PerformAny(built.value, decodeAny, valueOf, box);
    }

    /** The typed `PUT`. */
    method Put<Parameters, ResponseBody, ErrorResponse>(
      url: string, parameters: Option<Parameters> := None, encode: Parameters -> Result<Bytes, Foundation.Error>,
      headerFields: Option<HeaderDictionary> := None,
      decodeBody: Bytes -> Result<ResponseBody, Foundation.Error>,
      decodeError: Bytes -> Result<ErrorResponse, Foundation.Error>)
      returns (outcome: Completion<ResponseBody, ErrorResponse>)
      ensures outcome == TypedCall(decoderIsJSON, session,
        BuiltRequestWithBody(requestBuilder.encoderIsJSON, url, HTTPMethod.Put, parameters, encode, headerFields),
        decodeBody, decodeError)
    {
      var built := requestBuilder.BuildURLRequestWithBody(url, HTTPMethod.Put, parameters, encode, headerFields);
      if built.Err? {
        outcome := HandleError(Raised(built.error));
        return;
      }
      outcome := Perform(built.value, decodeBody, decodeError);
    }

    // -------------------------------------------------------------------
    // DELETE

    /** `DELETE` for raw data, which builds a `GET` request. */
    method DeleteData(url: string, headerFields: Option<HeaderDictionary> := None,
                      decodeData: Bytes -> Result<Bytes, Foundation.Error>)
      returns (outcome: Completion<Bytes, Bytes>)
      ensures outcome == DataCall(session, Ok(BuiltRequest(url, HTTPMethod.Get, headerFields)), decodeData)
    {
      var request := requestBuilder.BuildURLRequest(url, HTTPMethod.Get, headerFields);
      outcome := PerformData(request, decodeData);
    }

    /** `DELETE` for untyped values, which builds a `GET` request. */
    method DeleteAny<AnyDecodable, AnyValue>(
      url: string, headerFields: Option<HeaderDictionary> := None,
      decodeAny: Bytes -> Result<AnyDecodable, Foundation.Error>,
      valueOf: AnyDecodable -> AnyValue, box: AnyDecodable -> AnyValue)
      returns (outcome: Completion<AnyValue, AnyValue>)
      ensures outcome == AnyCall(decoderIsJSON, session, Ok(BuiltRequest(url, HTTPMethod.Get, headerFields)), decodeAny, valueOf, box)
    {
      var request := requestBuilder.BuildURLRequest(url, HTTPMethod.Get, headerFields);
      outcome := PerformAny(request, decodeAny, valueOf, box);
    }

    /** The typed `DELETE`. */
    method Delete<ResponseBody, ErrorResponse>(
      url: string, headerFields: Option<HeaderDictionary> := None,
      decodeBody: Bytes -> Result<ResponseBody, Foundation.Error>,
      decodeError: Bytes -> Result<ErrorResponse, Foundation.Error>)
      returns (outcome: Completion<ResponseBody, ErrorResponse>)
      ensures outcome == TypedCall(decoderIsJSON, session, Ok(BuiltRequest(url, HTTPMethod.Delete, headerFields)), decodeBody, decodeError)
    {
      var request := requestBuilder.BuildURLRequest(url, HTTPMethod.Delete, headerFields);
      outcome := Perform(request, decodeBody, decodeError);
    }
  }
}
