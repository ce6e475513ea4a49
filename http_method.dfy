/** The HTTP method catalog (`HTTPMethod`) and the `method` property that
    `URLRequest` gains from it. */
module Methods {
  import opened Foundation

  datatype HTTPMethod = Get | Head | Post | Put | Delete | Connect | Options | Trace | Patch

  /** The wire form of a method: its verb in upper case. */
  function RawValue(m: HTTPMethod): string {
    match m
    case Get => "GET"
    case Head => "HEAD"
    case Post => "POST"
    case Put => "PUT"
    case Delete => "DELETE"
    case Connect => "CONNECT"
    case Options => "OPTIONS"
    case Trace => "TRACE"
    case Patch => "PATCH"
  }

  /** `HTTPMethod(rawValue:)`: the method whose wire form is exactly `s`, if
      there is one. */
  function FromRawValue(s: string): (r: Option<HTTPMethod>)
    ensures forall m :: r == Some(m) <==> RawValue(m) == s
  {
    match s
    case "GET" => Some(Get)
    case "HEAD" => Some(Head)
    case "POST" => Some(Post)
    case "PUT" => Some(Put)
    case "DELETE" => Some(Delete)
    case "CONNECT" => Some(Connect)
    case "OPTIONS" => Some(Options)
    case "TRACE" => Some(Trace)
    case "PATCH" => Some(Patch)
    case _ => None
  }

  /** Every method survives printing and parsing. */
  lemma RawValueRoundTrip(m: HTTPMethod)
    ensures FromRawValue(RawValue(m)) == Some(m)
  {
  }

  /** Verbs are matched exactly: lower-case spellings name no method. */
  lemma LowerCaseVerbsAreRejected()
    ensures FromRawValue("get") == None && FromRawValue("post") == None
    ensures FromRawValue("put") == None && FromRawValue("delete") == None
    ensures FromRawValue("patch") == None
  {
  }

  /** The getter of `URLRequest.method`: no method when there is no method
      string, otherwise the method the string names (none for an unknown
      string). */
  function MethodOf(r: URLRequest): (m: Option<HTTPMethod>)
    ensures forall v :: m == Some(v) <==> r.httpMethod == Some(RawValue(v))
  {
    match r.httpMethod
    case None => None
    case Some(raw) => FromRawValue(raw)
  }

  /** The setter of `URLRequest.method`: stores the wire form of the new
      method, or clears the method string when it is `None`. */
  function WithMethod(r: URLRequest, m: Option<HTTPMethod>): (r': URLRequest)
    ensures MethodOf(r') == m
    ensures m.None? ==> r'.httpMethod.None?
    ensures r'.url == r.url && r'.allHTTPHeaderFields == r.allHTTPHeaderFields && r'.httpBody == r.httpBody
  {
    r.(httpMethod := match m case None => None case Some(v) => Some(RawValue(v)))
  }

  /** Setting a method and reading it back gives the same method, and setting
      it again overwrites the first assignment. */
  lemma SetThenSetOverwrites(r: URLRequest, m1: Option<HTTPMethod>, m2: Option<HTTPMethod>)
    ensures WithMethod(WithMethod(r, m1), m2) == WithMethod(r, m2)
  {
  }
}
