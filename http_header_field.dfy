/** The header-name catalog (`HTTPHeaderField`): thirty-three named header
    fields with fixed wire names and a catch-all `Custom(key)`. */
module Fields {

  datatype HTTPHeaderField =
    | Accept
    | AcceptCharset
    | AcceptEncoding
    | AcceptLanguage
    | Authorization
    | CacheControl
    | Connection
    | Cookie
    | ContentLength
    | ContentMD5
    | ContentType
    | Date
    | Expect
    | Forwarded
    | From
    | Host
    | IfMatch
    | IfModifiedSince
    | IfNoneMatch
    | IfRange
    | IfUnmodifiedSince
    | MaxForwards
    | Pragma
    | ProxyAuthorization
    | Range
    | Referer
    | TE
    | TransferEncoding
    | Upgrade
    | UserAgent
    | Via
    | Warning
    | XAPIKey
    | Custom(key: string)

  /** The wire name of a field; a custom field's wire name is its key. */
  function RawValue(f: HTTPHeaderField): string {
    match f
    case Accept => "Accept"
    case AcceptCharset => "Accept-Charset"
    case AcceptEncoding => "Accept-Encoding"
    case AcceptLanguage => "Accept-Language"
    case Authorization => "Authorization"
    case CacheControl => "Cache-Control"
    case Connection => "Connection"
    case Cookie => "Cookie"
    case ContentLength => "Content-Length"
    case ContentMD5 => "Content-MD5"
    case ContentType => "Content-Type"
    case Date => "Date"
    case Expect => "Expect"
    case Forwarded => "Forwarded"
    case From => "From"
    case Host => "Host"
    case IfMatch => "If-Match"
    case IfModifiedSince => "If-Modified-Since"
    case IfNoneMatch => "If-None-Match"
    case IfRange => "If-Range"
    case IfUnmodifiedSince => "If-Unmodified-Since"
    case MaxForwards => "Max-Forwards"
    case Pragma => "Pragma"
    case ProxyAuthorization => "Proxy-Authorization"
    case Range => "Range"
    case Referer => "Referer"
    case TE => "TE"
    case TransferEncoding => "Transfer-Encoding"
    case Upgrade => "Upgrade"
    case UserAgent => "User-Agent"
    case Via => "Via"
    case Warning => "Warning"
    case XAPIKey => "x-api-key"
    case Custom(key) => key
  }

  /** `HTTPHeaderField(rawValue:)`: the named field whose wire name is
      exactly `s` (case-sensitive), or `Custom(s)` for any other string
      (see `ParseThenPrint` and `NamedRoundTrip`). The single `switch` of the
      source is decided here first on the leading character and then on the
      whole string, among the wire names with that leading character; names
      with different leading characters differ, so every string reaches the
      same case as in the source. */
  function FromRawValue(s: string): HTTPHeaderField
  {
    if s == [] then Custom(s)
    else match s[0]
      case 'A' => FromRawValueA(s)
      case 'C' => FromRawValueC(s)
      case 'D' | 'E' | 'F' | 'H' => FromRawValueD(s)
      case 'I' => FromRawValueI(s)
      case 'M' | 'P' | 'R' => FromRawValueM(s)
      case 'T' | 'U' | 'V' | 'W' | 'x' => FromRawValueT(s)
      case _ => Custom(s)
  }

  function FromRawValueA(s: string): HTTPHeaderField
  {
    match s
    case "Accept" => Accept
    case "Accept-Charset" => AcceptCharset
    case "Accept-Encoding" => AcceptEncoding
    case "Accept-Language" => AcceptLanguage
    case "Authorization" => Authorization
    case _ => Custom(s)
  }

  function FromRawValueC(s: string): HTTPHeaderField
  {
    match s
    case "Cache-Control" => CacheControl
    case "Connection" => Connection
    case "Cookie" => Cookie
    case "Content-Length" => ContentLength
    case "Content-MD5" => ContentMD5
    case "Content-Type" => ContentType
    case _ => Custom(s)
  }

  function FromRawValueD(s: string): HTTPHeaderField
  {
    match s
    case "Date" => Date
    case "Expect" => Expect
    case "Forwarded" => Forwarded
    case "From" => From
    case "Host" => Host
    case _ => Custom(s)
  }

  function FromRawValueI(s: string): HTTPHeaderField
  {
    match s
    case "If-Match" => IfMatch
    case "If-Modified-Since" => IfModifiedSince
    case "If-None-Match" => IfNoneMatch
    case "If-Range" => IfRange
    case "If-Unmodified-Since" => IfUnmodifiedSince
    case _ => Custom(s)
  }

  function FromRawValueM(s: string): HTTPHeaderField
  {
    match s
    case "Max-Forwards" => MaxForwards
    case "Pragma" => Pragma
    case "Proxy-Authorization" => ProxyAuthorization
    case "Range" => Range
    case "Referer" => Referer
    case _ => Custom(s)
  }

  function FromRawValueT(s: string): HTTPHeaderField
  {
    match s
    case "TE" => TE
    case "Transfer-Encoding" => TransferEncoding
    case "Upgrade" => Upgrade
    case "User-Agent" => UserAgent
    case "Via" => Via
    case "Warning" => Warning
    case "x-api-key" => XAPIKey
    case _ => Custom(s)
  }

  /** Printing a parsed string gives the string back, for every string. */
  lemma ParseThenPrint(s: string)
    ensures RawValue(FromRawValue(s)) == s
  {
    if s != [] {
      match s[0]
      case 'A' => ParseThenPrintA(s);
      case 'C' => ParseThenPrintC(s);
      case 'D' | 'E' | 'F' | 'H' => ParseThenPrintD(s);
      case 'I' => ParseThenPrintI(s);
      case 'M' | 'P' | 'R' => ParseThenPrintM(s);
      case 'T' | 'U' | 'V' | 'W' | 'x' => ParseThenPrintT(s);
      case _ =>
    }
  }

  /** `ParseThenPrint` for all strings at once. */
  lemma ParseThenPrintEverywhere()
    ensures forall s :: RawValue(FromRawValue(s)) == s
  {
    forall s {
      ParseThenPrint(s);
    }
  }

  lemma ParseThenPrintA(s: string)
    ensures RawValue(FromRawValueA(s)) == s
  {
  }

  lemma ParseThenPrintC(s: string)
    ensures RawValue(FromRawValueC(s)) == s
  {
  }

  lemma ParseThenPrintD(s: string)
    ensures RawValue(FromRawValueD(s)) == s
  {
  }

  lemma ParseThenPrintI(s: string)
    ensures RawValue(FromRawValueI(s)) == s
  {
  }

  lemma ParseThenPrintM(s: string)
    ensures RawValue(FromRawValueM(s)) == s
  {
  }

  lemma ParseThenPrintT(s: string)
    ensures RawValue(FromRawValueT(s)) == s
  {
  }

  /** The wire names of the named fields parse to those fields, four at a
      time in the catalog's order. */
  lemma ParsesNamesA()
    ensures FromRawValue("Accept") == Accept
    ensures FromRawValue("Accept-Charset") == AcceptCharset
    ensures FromRawValue("Accept-Encoding") == AcceptEncoding
    ensures FromRawValue("Accept-Language") == AcceptLanguage
  {
  }

  lemma ParsesNamesB()
    ensures FromRawValue("Authorization") == Authorization
    ensures FromRawValue("Cache-Control") == CacheControl
    ensures FromRawValue("Connection") == Connection
    ensures FromRawValue("Cookie") == Cookie
  {
  }

  lemma ParsesNamesC()
    ensures FromRawValue("Content-Length") == ContentLength
    ensures FromRawValue("Content-MD5") == ContentMD5
    ensures FromRawValue("Content-Type") == ContentType
    ensures FromRawValue("Date") == Date
  {
  }

  lemma ParsesNamesD()
    ensures FromRawValue("Expect") == Expect
    ensures FromRawValue("Forwarded") == Forwarded
    ensures FromRawValue("From") == From
    ensures FromRawValue("Host") == Host
  {
  }

  lemma ParsesNamesE()
    ensures FromRawValue("If-Match") == IfMatch
    ensures FromRawValue("If-Modified-Since") == IfModifiedSince
    ensures FromRawValue("If-None-Match") == IfNoneMatch
    ensures FromRawValue("If-Range") == IfRange
  {
  }

  lemma ParsesNamesF()
    ensures FromRawValue("If-Unmodified-Since") == IfUnmodifiedSince
    ensures FromRawValue("Max-Forwards") == MaxForwards
    ensures FromRawValue("Pragma") == Pragma
    ensures FromRawValue("Proxy-Authorization") == ProxyAuthorization
  {
  }

  lemma ParsesNamesG()
    ensures FromRawValue("Range") == Range
    ensures FromRawValue("Referer") == Referer
    ensures FromRawValue("TE") == TE
    ensures FromRawValue("Transfer-Encoding") == TransferEncoding
  {
  }

  lemma ParsesNamesH()
    ensures FromRawValue("Upgrade") == Upgrade
    ensures FromRawValue("User-Agent") == UserAgent
    ensures FromRawValue("Via") == Via
    ensures FromRawValue("Warning") == Warning
  {
  }

  lemma ParsesNamesI()
    ensures FromRawValue("x-api-key") == XAPIKey
  {
  }

  /** Every named field survives printing and parsing. */
  lemma NamedRoundTrip(f: HTTPHeaderField)
    requires !f.Custom?
    ensures FromRawValue(RawValue(f)) == f
  {
    ParsesNamesA();
    ParsesNamesB();
    ParsesNamesC();
    ParsesNamesD();
    ParsesNamesE();
    ParsesNamesF();
    ParsesNamesG();
    ParsesNamesH();
    ParsesNamesI();
  }

  /** A string parses to `Custom` exactly when it is the wire name of none of
      the named fields, and then to `Custom` of that very string. */
  lemma CustomExactlyForUnlistedNames(s: string)
    ensures FromRawValue(s).Custom? <==> forall f: HTTPHeaderField :: !f.Custom? ==> RawValue(f) != s
    ensures FromRawValue(s).Custom? ==> FromRawValue(s) == Custom(s)
  {
    ParseThenPrint(s);
    if FromRawValue(s).Custom? {
      forall f: HTTPHeaderField | !f.Custom? ensures RawValue(f) != s {
        NamedRoundTrip(f);
      }
    }
  }

  /** A custom field prints as its key. */
  lemma CustomPrintsItsKey(key: string)
    ensures RawValue(Custom(key)) == key
  {
  }

  /** Matching is exact: only the lower-case spelling names `XAPIKey`, and a
      lower-case `accept` is a custom field. */
  lemma MatchingIsCaseSensitive()
    ensures FromRawValue("x-api-key") == XAPIKey
    ensures FromRawValue("X-API-Key") == Custom("X-API-Key")
    ensures FromRawValue("accept") == Custom("accept")
    ensures FromRawValue("Accept") == Accept
  {
  }

  /** The field a wire name denotes once parsed: `Custom("Accept")` and
      `Accept` both denote `Accept`; a parsed field denotes itself. */
  function Canonical(f: HTTPHeaderField): (g: HTTPHeaderField)
    ensures RawValue(g) == RawValue(f)
    ensures FromRawValue(RawValue(g)) == g
  {
    ParseThenPrint(RawValue(f));
    FromRawValue(RawValue(f))
  }

  /** Two fields share a wire name exactly when they denote the same field. */
  lemma SameWireNameIffSameCanonical(f: HTTPHeaderField, g: HTTPHeaderField)
    ensures RawValue(f) == RawValue(g) <==> Canonical(f) == Canonical(g)
  {
  }
}

/** The `URLRequest` extension that reads and writes a request's header
    table by field. */
module Headers {
  import opened Foundation
  import opened Fields

  /** No two entries share a wire name. Swift compares `HTTPHeaderField`
      values through their raw values (`RawRepresentable` equality and
      hashing), so `.custom(key: "Accept")` and `.accept` are one key. */
  predicate DistinctFields(entries: seq<(HTTPHeaderField, string)>) {
    forall i, j :: 0 <= i < j < |entries| ==> RawValue(entries[i].0) != RawValue(entries[j].0)
  }

  /** A Swift `[HTTPHeaderField : String]` dictionary that the code iterates:
      its entries, each key once, in the dictionary's iteration order. */
  type HeaderDictionary = entries: seq<(HTTPHeaderField, string)> | DistinctFields(entries) witness []

  /** The `headerFields` getter: no table gives `None`; otherwise one entry
      per raw header, keyed by the parsed field, with the value unchanged. */
  function HeaderFields(r: URLRequest): (h: Option<map<HTTPHeaderField, string>>)
    ensures h.None? <==> r.allHTTPHeaderFields.None?
    ensures h.Some? ==> forall n :: n in r.allHTTPHeaderFields.value ==>
      FromRawValue(n) in h.value && h.value[FromRawValue(n)] == r.allHTTPHeaderFields.value[n]
    ensures h.Some? ==> forall f :: f in h.value ==>
      Canonical(f) == f && RawValue(f) in r.allHTTPHeaderFields.value
  {
    ParseThenPrintEverywhere();
    match r.allHTTPHeaderFields
    case None => None
    case Some(table) => Some(map n | n in table :: FromRawValue(n) := table[n])
  }

  /** `value(forHeaderField:)`: the header stored under the field's wire
      name. */
  function Value(r: URLRequest, f: HTTPHeaderField): Option<string> {
    HTTPHeaderValue(r, RawValue(f))
  }

  /** What `value(forHeaderField:)` reads for a field is what `headerFields`
      holds for the field its wire name denotes. */
  lemma ValueAgreesWithHeaderFields(r: URLRequest, f: HTTPHeaderField)
    ensures Value(r, f).Some? <==> HeaderFields(r).Some? && Canonical(f) in HeaderFields(r).value
    ensures Value(r, f).Some? ==> Value(r, f).value == HeaderFields(r).value[Canonical(f)]
  {
  }

  /** `setValue(_:forHeaderField:)`: the field now reads `value`; headers
      under other wire names, the URL, the method and the body are kept. */
  function SetValue(r: URLRequest, value: Option<string>, f: HTTPHeaderField): (r': URLRequest)
    ensures Value(r', f) == value
    ensures forall n :: n != RawValue(f) ==> HTTPHeaderValue(r', n) == HTTPHeaderValue(r, n)
    ensures forall g :: RawValue(g) != RawValue(f) ==> Value(r', g) == Value(r, g)
    ensures r'.url == r.url && r'.httpMethod == r.httpMethod && r'.httpBody == r.httpBody
  {
    SetHTTPHeaderValueKeepsOthers(r, value, RawValue(f));
    SetHTTPHeaderValue(r, value, RawValue(f))
  }

  /** `addValue(_:forHeaderField:)`: the field now reads its old value with
      `value` appended (or `value` alone); nothing else changes. */
  function AddValue(r: URLRequest, value: string, f: HTTPHeaderField): (r': URLRequest)
    ensures Value(r', f) == Some(Appended(Value(r, f), value))
    ensures forall n :: n != RawValue(f) ==> HTTPHeaderValue(r', n) == HTTPHeaderValue(r, n)
    ensures forall g :: RawValue(g) != RawValue(f) ==> Value(r', g) == Value(r, g)
    ensures r'.url == r.url && r'.httpMethod == r.httpMethod && r'.httpBody == r.httpBody
  {
    AddHTTPHeaderValueKeepsOthers(r, value, RawValue(f));
    AddHTTPHeaderValue(r, value, RawValue(f))
  }
}
