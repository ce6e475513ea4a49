/** `RequestBuilder`: builds the request for a call from a URL, a method, an
    optional header dictionary and, for the typed overload, an optional body
    that it encodes with its parameter encoder. */
module Building {
  import opened Foundation
  import opened Methods
  import opened Fields
  import opened Headers

  /** The media type the client announces for JSON bodies and responses. */
  const JSONMediaType: string := "application/json;charset=UTF-8"

  /** The entries `headerFields?.forEach` visits: none for a nil dictionary. */
  function Entries(headerFields: Option<HeaderDictionary>): seq<(HTTPHeaderField, string)> {
    match headerFields
    case None => []
    case Some(entries) => entries
  }

  /** The request after the header loop has stored `entries`, in order, each
      with `setValue` under its field's wire name. */
  function StoreHeaders(r: URLRequest, entries: seq<(HTTPHeaderField, string)>): URLRequest
    decreases |entries|
  {
    if entries == [] then r
    else
      var last := entries[|entries| - 1];
      SetHTTPHeaderValue(StoreHeaders(r, entries[..|entries| - 1]), Some(last.1), Fields.RawValue(last.0))
  }

  /** The value of the last entry whose field has wire name `name`. */
  function LastValue(entries: seq<(HTTPHeaderField, string)>, name: string): Option<string>
    decreases |entries|
  {
    if entries == [] then None
    else if Fields.RawValue(entries[|entries| - 1].0) == name then Some(entries[|entries| - 1].1)
    else LastValue(entries[..|entries| - 1], name)
  }

  /** Storing headers in order leaves, under every name, the value of the last
      entry with that wire name (later entries win), keeps every other header
      of `r`, and touches nothing but the header table. */
  lemma {:induction false} StoreHeadersLookup(r: URLRequest, entries: seq<(HTTPHeaderField, string)>, name: string)
    ensures HTTPHeaderValue(StoreHeaders(r, entries), name)
            == if LastValue(entries, name).Some? then LastValue(entries, name) else HTTPHeaderValue(r, name)
    ensures StoreHeaders(r, entries).url == r.url
    ensures StoreHeaders(r, entries).httpMethod == r.httpMethod
    ensures StoreHeaders(r, entries).httpBody == r.httpBody
    ensures StoreHeaders(r, entries).allHTTPHeaderFields.None? <==> r.allHTTPHeaderFields.None? && entries == []
    decreases |entries|
  {
    if entries != [] {
      var last := entries[|entries| - 1];
      StoreHeadersLookup(r, entries[..|entries| - 1], name);
      SetHTTPHeaderValueKeepsOthers(StoreHeaders(r, entries[..|entries| - 1]), Some(last.1), Fields.RawValue(last.0));
    }
  }

  lemma StoreHeadersLookupAll(r: URLRequest, entries: seq<(HTTPHeaderField, string)>)
    ensures forall name :: (HTTPHeaderValue(StoreHeaders(r, entries), name) ==
      if LastValue(entries, name).Some? then LastValue(entries, name) else HTTPHeaderValue(r, name))
    ensures StoreHeaders(r, entries).url == r.url
    ensures StoreHeaders(r, entries).httpMethod == r.httpMethod
    ensures StoreHeaders(r, entries).httpBody == r.httpBody
    ensures StoreHeaders(r, entries).allHTTPHeaderFields.None? <==> r.allHTTPHeaderFields.None? && entries == []
  {
    forall name: string {
      StoreHeadersLookup(r, entries, name);
    }
    StoreHeadersLookup(r, entries, "");
  }

  /** Some entry's field has wire name `name`. */
  predicate Spelled(entries: seq<(HTTPHeaderField, string)>, name: string) {
    exists j :: 0 <= j < |entries| && Fields.RawValue(entries[j].0) == name
  }

  /** In a dictionary, every entry is the last (indeed the only) one under
      its wire name. */
  lemma {:induction false} LastValueOfEntry(entries: seq<(HTTPHeaderField, string)>, i: nat)
    requires i < |entries|
    requires DistinctFields(entries)
    ensures LastValue(entries, Fields.RawValue(entries[i].0)) == Some(entries[i].1)
    decreases |entries|
  {
    var n := |entries| - 1;
    if i < n {
      var prefix := entries[..n];
      assert DistinctFields(prefix) by {
        forall j | 0 <= j < |prefix| ensures prefix[j] == entries[j] {
        }
      }
      LastValueOfEntry(prefix, i);
    }
  }

  /** No entry under a name leaves no value under it. */
  lemma {:induction false} LastValueAbsent(entries: seq<(HTTPHeaderField, string)>, name: string)
    requires !Spelled(entries, name)
    ensures LastValue(entries, name) == None
    decreases |entries|
  {
    if entries != [] {
      var prefix := entries[..|entries| - 1];
      assert !Spelled(prefix, name) by {
        forall j | 0 <= j < |prefix| ensures prefix[j] == entries[j] {
        }
      }
      LastValueAbsent(prefix, name);
    }
  }

  /** The request `buildURLRequest(url:method:headerFields:)` returns (see
      `BuiltRequestContents`). */
  function BuiltRequest(url: string, requestMethod: HTTPMethod, headerFields: Option<HeaderDictionary>): URLRequest {
    var start := NewRequest(url).(httpMethod := Some(Methods.RawValue(requestMethod)));
    StoreHeaders(start, Entries(headerFields))
  }

  /** The untyped builder's request carries the URL, the method's wire form
      and no body, and each header holds the last supplied value for its
      wire name; a nil or empty dictionary leaves the request without a
      header table. Every supplied field reads back its own value, and a
      name no supplied field spells has no header. */
  lemma BuiltRequestContents(url: string, requestMethod: HTTPMethod, headerFields: Option<HeaderDictionary>)
    ensures var b := BuiltRequest(url, requestMethod, headerFields);
      && b.url == url && b.httpBody.None?
      && b.httpMethod == Some(Methods.RawValue(requestMethod)) && MethodOf(b) == Some(requestMethod)
      && (forall name :: HTTPHeaderValue(b, name) == LastValue(Entries(headerFields), name))
      && (b.allHTTPHeaderFields.None? <==> Entries(headerFields) == [])
      && (forall i :: 0 <= i < |Entries(headerFields)| ==>
            Value(b, Entries(headerFields)[i].0) == Some(Entries(headerFields)[i].1))
      && (forall name :: !Spelled(Entries(headerFields), name) ==> HTTPHeaderValue(b, name).None?)
  {
    var start := NewRequest(url).(httpMethod := Some(Methods.RawValue(requestMethod)));
    var entries := Entries(headerFields);
    StoreHeadersLookupAll(start, entries);
    var b := StoreHeaders(start, entries);
    assert DistinctFields(entries);
    forall i | 0 <= i < |entries| ensures Value(b, entries[i].0) == Some(entries[i].1) {
      LastValueOfEntry(entries, i);
    }
    forall name | !Spelled(entries, name) ensures HTTPHeaderValue(b, name).None? {
      LastValueAbsent(entries, name);
    }
  }

  /** Two iterations of the same entries spell the same names. */
  lemma SameEntriesSameSpelling(h1: seq<(HTTPHeaderField, string)>, h2: seq<(HTTPHeaderField, string)>, name: string)
    requires multiset(h1) == multiset(h2)
    ensures Spelled(h1, name) <==> Spelled(h2, name)
  {
    if Spelled(h1, name) {
      var i :| 0 <= i < |h1| && Fields.RawValue(h1[i].0) == name;
      assert h1[i] in multiset(h2);
      var j :| 0 <= j < |h2| && h2[j] == h1[i];
    }
    if Spelled(h2, name) {
      var j :| 0 <= j < |h2| && Fields.RawValue(h2[j].0) == name;
      assert h2[j] in multiset(h1);
      var i :| 0 <= i < |h1| && h1[i] == h2[j];
    }
  }

  /** Two iterations of the same dictionary leave the same last value
      under every name. */
  lemma SameEntriesSameLastValue(h1: HeaderDictionary, h2: HeaderDictionary, name: string)
    requires multiset(h1) == multiset(h2)
    ensures LastValue(h1, name) == LastValue(h2, name)
  {
    SameEntriesSameSpelling(h1, h2, name);
    if Spelled(h1, name) {
      var i :| 0 <= i < |h1| && Fields.RawValue(h1[i].0) == name;
      assert h1[i] in multiset(h2);
      var j :| 0 <= j < |h2| && h2[j] == h1[i];
      LastValueOfEntry(h1, i);
      LastValueOfEntry(h2, j);
    } else {
      LastValueAbsent(h1, name);
      LastValueAbsent(h2, name);
    }
  }

  /** The built request does not depend on the order in which the header
      dictionary is iterated: two iterations of the same entries give the
      same request. */
  lemma BuiltRequestIgnoresOrder(url: string, requestMethod: HTTPMethod, h1: HeaderDictionary, h2: HeaderDictionary)
    requires multiset(h1) == multiset(h2)
    ensures BuiltRequest(url, requestMethod, Some(h1)) == BuiltRequest(url, requestMethod, Some(h2))
  {
    var start := NewRequest(url).(httpMethod := Some(Methods.RawValue(requestMethod)));
    StoreHeadersLookupAll(start, h1);
    StoreHeadersLookupAll(start, h2);
    var b1, b2 := StoreHeaders(start, h1), StoreHeaders(start, h2);
    forall name ensures HTTPHeaderValue(b1, name) == HTTPHeaderValue(b2, name) {
      SameEntriesSameLastValue(h1, h2, name);
    }
    assert |h1| == |multiset(h1)| == |multiset(h2)| == |h2|;
    HeaderTableDeterminedByLookups(b1, b2);
  }

  /** The methods for which the typed builder attaches an encoded body. */
  predicate CarriesBody(m: HTTPMethod) {
    m == Post || m == Put
  }

  /** What `buildURLRequest(url:method:body:headerFields:)` returns or
      throws (see `BuiltRequestWithBodyOutcome` and
      `BuiltRequestWithBodyHeaders`). */
  function BuiltRequestWithBody<B>(encoderIsJSON: bool, url: string, requestMethod: HTTPMethod, body: Option<B>,
                                   encode: B -> Result<Bytes, Error>, headerFields: Option<HeaderDictionary>)
    : Result<URLRequest, Error>
  {
    var request := BuiltRequest(url, requestMethod, headerFields);
    if CarriesBody(requestMethod) && body.Some? then
      match encode(body.value)
      case Err(e) => Err(e)
      case Ok(data) =>
        var withBody := request.(httpBody := Some(data));
        Ok(if encoderIsJSON then AddHTTPHeaderValue(withBody, JSONMediaType, Fields.RawValue(ContentType)) else withBody)
    else Ok(request)
  }

  /** Only a `POST` or `PUT` with a body encodes it. An encoding failure is
      thrown and no request is returned; otherwise the encoded bytes become
      the body. Every other call returns exactly the untyped builder's
      request, without a body, whatever body was supplied. */
  lemma BuiltRequestWithBodyOutcome<B>(encoderIsJSON: bool, url: string, requestMethod: HTTPMethod, body: Option<B>,
                                       encode: B -> Result<Bytes, Error>, headerFields: Option<HeaderDictionary>)
    ensures var r := BuiltRequestWithBody(encoderIsJSON, url, requestMethod, body, encode, headerFields);
      && (r.Err? <==> CarriesBody(requestMethod) && body.Some? && encode(body.value).Err?)
      && (r.Err? ==> r.error == encode(body.value).error)
      && (!(CarriesBody(requestMethod) && body.Some?) ==> r == Ok(BuiltRequest(url, requestMethod, headerFields)))
      && (r.Ok? ==> r.value.url == url && r.value.httpMethod == Some(Methods.RawValue(requestMethod)))
      && (r.Ok? ==> (r.value.httpBody.Some? <==> CarriesBody(requestMethod) && body.Some?))
      && (r.Ok? && r.value.httpBody.Some? ==> Ok(r.value.httpBody.value) == encode(body.value))
  {
    BuiltRequestContents(url, requestMethod, headerFields);
  }

  /** With an encoded body and the JSON encoder, the JSON media type is
      appended to `Content-Type`; every other header of the untyped builder's
      request is kept, and without the JSON encoder nothing is added. */
  lemma BuiltRequestWithBodyHeaders<B>(encoderIsJSON: bool, url: string, requestMethod: HTTPMethod, b: B,
                                       encode: B -> Result<Bytes, Error>, headerFields: Option<HeaderDictionary>)
    requires CarriesBody(requestMethod) && encode(b).Ok?
    ensures var r := BuiltRequestWithBody(encoderIsJSON, url, requestMethod, Some(b), encode, headerFields);
      var plain := BuiltRequest(url, requestMethod, headerFields);
      && r.Ok?
      && (forall g :: Fields.RawValue(g) != "Content-Type" ==> Value(r.value, g) == Value(plain, g))
      && Value(r.value, ContentType) ==
           if encoderIsJSON then Some(Appended(Value(plain, ContentType), JSONMediaType)) else Value(plain, ContentType)
  {
    var plain := BuiltRequest(url, requestMethod, headerFields);
    AddHTTPHeaderValueKeepsOthers(plain.(httpBody := Some(encode(b).value)), JSONMediaType, "Content-Type");
  }

  class RequestBuilder {
    /** Whether `parameterEncoder` is a `JSONEncoder`. */
    var encoderIsJSON: bool

    /** The parameter encoder starts out as a `JSONEncoder`. */
    constructor ()
      ensures encoderIsJSON
    {
      encoderIsJSON := true;
    }

    /** `buildURLRequest(url:method:headerFields:)`. */
    method BuildURLRequest(url: string, requestMethod: HTTPMethod := Get, headerFields: Option<HeaderDictionary> := None)
      returns (request: URLRequest)
      ensures request == BuiltRequest(url, requestMethod, headerFields)
    {
      request := NewRequest(url);
      request := request.(httpMethod := Some(Methods.RawValue(requestMethod)));
      ghost var start := request;
      var entries := Entries(headerFields);
      for i := 0 to |entries|
        invariant request == StoreHeaders(start, entries[..i])
      {
        var (field, value) := entries[i];
        assert entries[..i + 1][..i] == entries[..i];
        request := SetHTTPHeaderValue(request, Some(value), Fields.RawValue(field));
      }
      assert entries[..|entries|] == entries;
    }

    /** `buildURLRequest(url:method:body:headerFields:)`, with the encoder's
        `encode` passed in for the body's type. */
    method BuildURLRequestWithBody<B>(url: string, requestMethod: HTTPMethod, body: Option<B>,
                                      encode: B -> Result<Bytes, Error>, headerFields: Option<HeaderDictionary> := None)
      returns (r: Result<URLRequest, Error>)
      ensures r == BuiltRequestWithBody(encoderIsJSON, url, requestMethod, body, encode, headerFields)
    {
      var request := BuildURLRequest(url, requestMethod, headerFields);
      match requestMethod {
        case Post | Put =>
          if body.Some? {
            var encoded := encode(body.value);
            if encoded.Err? {
              return Err(encoded.error);
            }
            request := request.(httpBody := Some(encoded.value));
            if encoderIsJSON {
              request := AddHTTPHeaderValue(request, JSONMediaType, Fields.RawValue(ContentType));
            }
          }
        case _ =>
      }
      r := Ok(request);
    }
  }
}
