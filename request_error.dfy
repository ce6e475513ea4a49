/** The error taxonomy every failed call is delivered as (`RequestError`). */
module Errors {
  import opened Foundation

  /** Exactly one of five cases. Only `ApiError` carries the caller's typed
      payload, paired with the HTTP response so that its status code stays
      readable; the other four wrap only the underlying error value. */
  datatype RequestError<+Body> =
    | UrlError(urlError: URLError)
    | ApiError(response: HTTPURLResponse, body: Body)
    | DecodingError(decodingError: Foundation.DecodingError)
    | EncodingError(encodingError: Foundation.EncodingError)
    | UnknowError(error: Foundation.Error)

  /** The error value a non-`ApiError` case wraps; `ApiError` wraps none. */
  function Underlying<Body>(e: RequestError<Body>): Option<Foundation.Error> {
    match e
    case UrlError(u) => Some(URLErr(u))
    case ApiError(_, _) => None
    case DecodingError(d) => Some(DecodingErr(d))
    case EncodingError(x) => Some(EncodingErr(x))
    case UnknowError(x) => Some(x)
  }

  /** The same error with its payload converted by `f`: the case, the
      response and the wrapped error are kept, and only an `ApiError` body
      is touched. */
  function MapBody<A, B>(e: RequestError<A>, f: A -> B): (e': RequestError<B>)
    ensures e'.ApiError? <==> e.ApiError?
    ensures e.ApiError? ==> e'.response == e.response && e'.body == f(e.body)
    ensures e'.UrlError? == e.UrlError? && e'.DecodingError? == e.DecodingError?
    ensures e'.EncodingError? == e.EncodingError? && e'.UnknowError? == e.UnknowError?
    ensures Underlying(e') == Underlying(e)
  {
    match e
    case UrlError(u) => UrlError(u)
    case ApiError(response, body) => ApiError(response, f(body))
    case DecodingError(d) => DecodingError(d)
    case EncodingError(x) => EncodingError(x)
    case UnknowError(x) => UnknowError(x)
  }
}
