/** The client's test suite, as scenarios over the model: a mock session
    answers eight requests registered in advance (typed builder with the
    JSON encoder, `Accept` set to the JSON media type), and each entry point
    is called on it with a codec for the `Test` record whose decoder
    inverts its encoder. */
module Scenarios {
  import opened Foundation
  import opened Methods
  import opened Fields
  import opened Headers
  import opened Errors
  import opened Building
  import opened Client

  datatype Test = Test(testString: string)

  const TestURL: string := "https://api.test.com/Test"
  const ErrorURL: string := "https://api.test.com/Error"
  const TestParameter: Test := Test("TestParameter")
  const TestBody: Test := Test("TestBody")
  const TestError: Test := Test("Error")

  /** The header dictionary the mock's requests are built with. */
  function AcceptJSON(): HeaderDictionary {
    [(Accept, JSONMediaType)]
  }

  function Response(url: string, statusCode: int): HTTPURLResponse {
    HTTPURLResponse(url, statusCode, map[])
  }

  /** The JSON encoder on `Test`, which cannot fail. */
  function Encoder(encodeTest: Test -> Bytes): Test -> Result<Bytes, Foundation.Error> {
    (t: Test) => Ok(encodeTest(t))
  }

  /** The request registered for `url` and method `m`: the URL, the verb, the
      JSON `Accept` header and, with a body, the JSON `Content-Type`. */
  function MockKey(url: string, m: HTTPMethod, body: Option<Bytes>): URLRequest {
    var headers := if body.Some? then map["Accept" := JSONMediaType, "Content-Type" := JSONMediaType]
                   else map["Accept" := JSONMediaType];
    URLRequest(url, Some(Methods.RawValue(m)), Some(headers), body)
  }

  /** A request built without a body and with the JSON `Accept` header is a
      registered key, and so is the typed client's request for the same
      call: the client adds the `Accept` header the test adds by hand. */
  lemma MockKeyWithoutBody(url: string, m: HTTPMethod)
    ensures BuiltRequest(url, m, Some(AcceptJSON())) == MockKey(url, m, None)
    ensures TypedRequest(true, BuiltRequest(url, m, None)) == MockKey(url, m, None)
  {
    var entries := AcceptJSON();
    assert entries[..|entries| - 1] == [];
  }

  /** The same for a `POST` or `PUT` whose body encodes to `data`: the
      order in which `Accept` and `Content-Type` are added does not
      matter. */
  lemma MockKeyWithBody(url: string, m: HTTPMethod, encodeTest: Test -> Bytes, p: Test)
    requires CarriesBody(m)
    ensures BuiltRequestWithBody(true, url, m, Some(p), Encoder(encodeTest), Some(AcceptJSON()))
            == Ok(MockKey(url, m, Some(encodeTest(p))))
    ensures var built := BuiltRequestWithBody(true, url, m, Some(p), Encoder(encodeTest), None);
      built.Ok? && TypedRequest(true, built.value) == MockKey(url, m, Some(encodeTest(p)))
  {
    MockKeyWithoutBody(url, m);
    var data := encodeTest(p);
    var sent := TypedRequest(true, BuiltRequestWithBody(true, url, m, Some(p), Encoder(encodeTest), None).value);
    assert Table(sent) == map["Content-Type" := JSONMediaType]["Accept" := JSONMediaType];
    assert map["Content-Type" := JSONMediaType]["Accept" := JSONMediaType]
           == map["Accept" := JSONMediaType, "Content-Type" := JSONMediaType];
  }

  /** The results the mock session is set up with. */
  function MockResults(encodeTest: Test -> Bytes): map<URLRequest, TaskResult> {
    var ok := TaskResult(Some(encodeTest(TestBody)), Some(HTTPResponse(Response(TestURL, 200))), None);
    var notFound := TaskResult(Some(encodeTest(TestError)), Some(HTTPResponse(Response(ErrorURL, 404))), None);
    var badRequest := TaskResult(Some(encodeTest(TestError)), Some(HTTPResponse(Response(ErrorURL, 400))), None);
    var parameter := Some(encodeTest(TestParameter));
    map[
      MockKey(TestURL, Get, None) := ok,
      MockKey(TestURL, Post, parameter) := ok,
      MockKey(TestURL, Put, parameter) := ok,
      MockKey(TestURL, Delete, None) := ok,
      MockKey(ErrorURL, Get, None) := notFound,
      MockKey(ErrorURL, Post, parameter) := badRequest,
      MockKey(ErrorURL, Put, parameter) := badRequest,
      MockKey(ErrorURL, Delete, None) := notFound
    ]
  }

  /** The mock session; a request that was not registered gets an empty
      triple, which the client answers with "Unexpected Error". */
  function MockSession(encodeTest: Test -> Bytes): URLRequest -> TaskResult {
    var results := MockResults(encodeTest);
    (r: URLRequest) => if r in results then results[r] else TaskResult(None, None, None)
  }

  /** A typed `GET` on the test URL delivers the test body with status 200. */
  method GetSucceeds<ErrorResponse>(encodeTest: Test -> Bytes, decodeTest: Bytes -> Result<Test, Foundation.Error>,
                                    decodeError: Bytes -> Result<ErrorResponse, Foundation.Error>)
    returns (outcome: Completion<Test, ErrorResponse>)
    requires forall t :: decodeTest(encodeTest(t)) == Ok(t)
    ensures outcome == Delivered(Success(Response(TestURL, 200), TestBody))
  {
    var client := new HTTPClient(MockSession(encodeTest));
    outcome := client.Get(TestURL, None, decodeTest, decodeError);
    MockKeyWithoutBody(TestURL, Get);
  }

  /** A typed `GET` on the error URL delivers an `ApiError` with status 404
      and the decoded error body. */
  method GetFailsWithNotFound<ResponseBody>(encodeTest: Test -> Bytes, decodeBody: Bytes -> Result<ResponseBody, Foundation.Error>,
                                            decodeTest: Bytes -> Result<Test, Foundation.Error>)
    returns (outcome: Completion<ResponseBody, Test>)
    requires forall t :: decodeTest(encodeTest(t)) == Ok(t)
    ensures outcome == Delivered(Failure(ApiError(Response(ErrorURL, 404), TestError)))
  {
    var client := new HTTPClient(MockSession(encodeTest));
    outcome := client.Get(ErrorURL, None, decodeBody, decodeTest);
    MockKeyWithoutBody(ErrorURL, Get);
  }

  /** A typed `POST` of the test parameter on the test URL delivers the test
      body with status 200. */
  method PostSucceeds<ErrorResponse>(encodeTest: Test -> Bytes, decodeTest: Bytes -> Result<Test, Foundation.Error>,
                                     decodeError: Bytes -> Result<ErrorResponse, Foundation.Error>)
    returns (outcome: Completion<Test, ErrorResponse>)
    requires forall t :: decodeTest(encodeTest(t)) == Ok(t)
    ensures outcome == Delivered(Success(Response(TestURL, 200), TestBody))
  {
    var client := new HTTPClient(MockSession(encodeTest));
    outcome := client.Post(TestURL, Some(TestParameter), Encoder(encodeTest), None, decodeTest, decodeError);
    MockKeyWithBody(TestURL, Post, encodeTest, TestParameter);
  }

  /** A typed `POST` on the error URL delivers an `ApiError` with status 400
      and the decoded error body. */
  method PostFailsWithBadRequest<ResponseBody>(encodeTest: Test -> Bytes, decodeBody: Bytes -> Result<ResponseBody, Foundation.Error>,
                                               decodeTest: Bytes -> Result<Test, Foundation.Error>)
    returns (outcome: Completion<ResponseBody, Test>)
    requires forall t :: decodeTest(encodeTest(t)) == Ok(t)
    ensures outcome == Delivered(Failure(ApiError(Response(ErrorURL, 400), TestError)))
  {
    var client := new HTTPClient(MockSession(encodeTest));
    outcome := client.Post(ErrorURL, Some(TestParameter), Encoder(encodeTest), None, decodeBody, decodeTest);
    MockKeyWithBody(ErrorURL, Post, encodeTest, TestParameter);
  }

  /** A typed `PUT` of the test parameter on the test URL delivers the test
      body with status 200. */
  method PutSucceeds<ErrorResponse>(encodeTest: Test -> Bytes, decodeTest: Bytes -> Result<Test, Foundation.Error>,
                                    decodeError: Bytes -> Result<ErrorResponse, Foundation.Error>)
    returns (outcome: Completion<Test, ErrorResponse>)
    requires forall t :: decodeTest(encodeTest(t)) == Ok(t)
    ensures outcome == Delivered(Success(Response(TestURL, 200), TestBody))
  {
    var client := new HTTPClient(MockSession(encodeTest));
    outcome := client.Put(TestURL, Some(TestParameter), Encoder(encodeTest), None, decodeTest, decodeError);
    MockKeyWithBody(TestURL, Put, encodeTest, TestParameter);
  }

  /** A typed `PUT` on the error URL delivers an `ApiError` with status 400
      and the decoded error body. */
  method PutFailsWithBadRequest<ResponseBody>(encodeTest: Test -> Bytes, decodeBody: Bytes -> Result<ResponseBody, Foundation.Error>,
                                              decodeTest: Bytes -> Result<Test, Foundation.Error>)
    returns (outcome: Completion<ResponseBody, Test>)
    requires forall t :: decodeTest(encodeTest(t)) == Ok(t)
    ensures outcome == Delivered(Failure(ApiError(Response(ErrorURL, 400), TestError)))
  {
    var client := new HTTPClient(MockSession(encodeTest));
    outcome := client.Put(ErrorURL, Some(TestParameter), Encoder(encodeTest), None, decodeBody, decodeTest);
    MockKeyWithBody(ErrorURL, Put, encodeTest, TestParameter);
  }

  /** A typed `DELETE` on the test URL delivers the test body with status
      200. */
  method DeleteSucceeds<ErrorResponse>(encodeTest: Test -> Bytes, decodeTest: Bytes -> Result<Test, Foundation.Error>,
                                       decodeError: Bytes -> Result<ErrorResponse, Foundation.Error>)
    returns (outcome: Completion<Test, ErrorResponse>)
    requires forall t :: decodeTest(encodeTest(t)) == Ok(t)
    ensures outcome == Delivered(Success(Response(TestURL, 200), TestBody))
  {
    var client := new HTTPClient(MockSession(encodeTest));
    outcome := client.Delete(TestURL, None, decodeTest, decodeError);
    MockKeyWithoutBody(TestURL, Delete);
  }

  /** A typed `DELETE` on the error URL delivers an `ApiError` with status
      404 and the decoded error body. */
  method DeleteFailsWithNotFound<ResponseBody>(encodeTest: Test -> Bytes, decodeBody: Bytes -> Result<ResponseBody, Foundation.Error>,
                                               decodeTest: Bytes -> Result<Test, Foundation.Error>)
    returns (outcome: Completion<ResponseBody, Test>)
    requires forall t :: decodeTest(encodeTest(t)) == Ok(t)
    ensures outcome == Delivered(Failure(ApiError(Response(ErrorURL, 404), TestError)))
  {
    var client := new HTTPClient(MockSession(encodeTest));
    outcome := client.Delete(ErrorURL, None, decodeBody, decodeTest);
    MockKeyWithoutBody(ErrorURL, Delete);
  }

  /** The untyped `GET` on the error URL: the typed call beneath it delivers
      an `ApiError` with status 404, which the untyped completion as written
      turns into a stop at `fatalError`, while the corrected one delivers
      the same `ApiError` with the error body boxed. */
  lemma UntypedGetOnErrorURL<AnyValue>(encodeTest: Test -> Bytes, decodeTest: Bytes -> Result<Test, Foundation.Error>,
                                       valueOf: Test -> AnyValue, box: Test -> AnyValue)
    requires forall t :: decodeTest(encodeTest(t)) == Ok(t)
    ensures var inner := TypedCall(true, MockSession(encodeTest), Ok(BuiltRequest(ErrorURL, Get, None)), decodeTest, decodeTest);
      && inner == Delivered(Failure(ApiError(Response(ErrorURL, 404), TestError)))
      && AnyResultAsWritten(inner, valueOf) == Trapped(UnknownErrorMessage)
      && AnyCall(true, MockSession(encodeTest), Ok(BuiltRequest(ErrorURL, Get, None)), decodeTest, valueOf, box)
         == Delivered(Failure(ApiError(Response(ErrorURL, 404), box(TestError))))
  {
    MockKeyWithoutBody(ErrorURL, Get);
  }
}
