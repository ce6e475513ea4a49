/** The parts of Apple's Foundation framework the client relies on, reduced
    to plain values: optional values, byte strings, `URLRequest`,
    `HTTPURLResponse`, the error types thrown by the transport and the codecs,
    and the primitive header-table operations of `URLRequest`.

    Header names are compared exactly (Foundation's case-insensitive header
    storage is not modelled). Swift's `Optional` is `Option`. */
module Foundation {

  datatype Option<+T> = None | Some(value: T)

  datatype Result<+T, +E> = Ok(value: T) | Err(error: E)

  newtype byte = x: int | 0 <= x < 256

  /** Swift's `Data`. */
  type Bytes = seq<byte>

  /** A request record: target URL, method string, header table and body.
      A fresh request has no method string and no header table. */
  datatype URLRequest = URLRequest(
    url: string,
    httpMethod: Option<string>,
    allHTTPHeaderFields: Option<map<string, string>>,
    httpBody: Option<Bytes>)

  /** `URLRequest(url:)`. */
  function NewRequest(url: string): URLRequest {
    URLRequest(url, None, None, None)
  }

  /** The response envelope: status code and response headers. */
  datatype HTTPURLResponse = HTTPURLResponse(url: string, statusCode: int, headers: map<string, string>)

  /** What a data task may hand back as its response: an HTTP response, or a
      response of another protocol. */
  datatype URLResponse = HTTPResponse(http: HTTPURLResponse) | OtherResponse(url: string)

  datatype URLError = URLError(code: int)
  datatype DecodingError = DataCorrupted(debugDescription: string)
  datatype EncodingError = InvalidValue(debugDescription: string)

  /** A value of Swift's `Error` existential as thrown by the transport, an
      encoder or a decoder; `Other` is any error of another type. */
  datatype Error =
    | URLErr(urlError: URLError)
    | DecodingErr(decodingError: DecodingError)
    | EncodingErr(encodingError: EncodingError)
    | Other(typeName: string)

  /** The triple a data task passes to its completion handler. */
  datatype TaskResult = TaskResult(data: Option<Bytes>, response: Option<URLResponse>, error: Option<Error>)

  /** `value(forHTTPHeaderField:)`. */
  function HTTPHeaderValue(r: URLRequest, name: string): Option<string> {
    match r.allHTTPHeaderFields
    case None => None
    case Some(table) => if name in table then Some(table[name]) else None
  }

  function Table(r: URLRequest): map<string, string> {
    match r.allHTTPHeaderFields
    case None => map[]
    case Some(table) => table
  }

  /** `setValue(_:forHTTPHeaderField:)`: stores `value` under `name`,
      replacing what was there; `None` removes the entry. */
  function SetHTTPHeaderValue(r: URLRequest, value: Option<string>, name: string): (r': URLRequest)
    ensures HTTPHeaderValue(r', name) == value
    ensures r'.url == r.url && r'.httpMethod == r.httpMethod && r'.httpBody == r.httpBody
    ensures value.Some? ==> r'.allHTTPHeaderFields.Some?
    ensures value.None? ==> (r'.allHTTPHeaderFields.None? <==> r.allHTTPHeaderFields.None?)
  {
    match value
    case Some(v) => r.(allHTTPHeaderFields := Some(Table(r)[name := v]))
    case None =>
      if r.allHTTPHeaderFields.None? then r
      else r.(allHTTPHeaderFields := Some(Table(r) - {name}))
  }

  /** The value `addValue` leaves under a name: the new value alone, or the
      old one followed by a comma and the new one. */
  function Appended(previous: Option<string>, value: string): string {
    match previous
    case None => value
    case Some(o) => o + "," + value
  }

  /** `addValue(_:forHTTPHeaderField:)`: appends `value` to the entry under
      `name`, comma separated, or creates the entry. */
  function AddHTTPHeaderValue(r: URLRequest, value: string, name: string): (r': URLRequest)
    ensures HTTPHeaderValue(r', name) == Some(Appended(HTTPHeaderValue(r, name), value))
    ensures r'.url == r.url && r'.httpMethod == r.httpMethod && r'.httpBody == r.httpBody
    ensures r'.allHTTPHeaderFields.Some?
  {
    SetHTTPHeaderValue(r, Some(Appended(HTTPHeaderValue(r, name), value)), name)
  }

  /** `setValue(_:forHTTPHeaderField:)` leaves every other name alone. */
  lemma SetHTTPHeaderValueKeepsOthers(r: URLRequest, value: Option<string>, name: string)
    ensures forall n :: n != name ==> HTTPHeaderValue(SetHTTPHeaderValue(r, value, name), n) == HTTPHeaderValue(r, n)
  {
  }

  /** `addValue(_:forHTTPHeaderField:)` leaves every other name alone. */
  lemma AddHTTPHeaderValueKeepsOthers(r: URLRequest, value: string, name: string)
    ensures forall n :: n != name ==> HTTPHeaderValue(AddHTTPHeaderValue(r, value, name), n) == HTTPHeaderValue(r, n)
  {
    SetHTTPHeaderValueKeepsOthers(r, Some(Appended(HTTPHeaderValue(r, name), value)), name);
  }

  /** Two requests whose header tables both exist, or both do not, and that
      read the same under every name have the same header table. */
  lemma HeaderTableDeterminedByLookups(r1: URLRequest, r2: URLRequest)
    requires r1.allHTTPHeaderFields.Some? <==> r2.allHTTPHeaderFields.Some?
    requires forall n :: HTTPHeaderValue(r1, n) == HTTPHeaderValue(r2, n)
    ensures r1.allHTTPHeaderFields == r2.allHTTPHeaderFields
  {
    if r1.allHTTPHeaderFields.Some? {
      var t1, t2 := r1.allHTTPHeaderFields.value, r2.allHTTPHeaderFields.value;
      forall n ensures (n in t1 <==> n in t2) && (n in t1 ==> t1[n] == t2[n]) {
        assert HTTPHeaderValue(r1, n) == HTTPHeaderValue(r2, n);
      }
      assert t1 == t2;
    }
  }
}
