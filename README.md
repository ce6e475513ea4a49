# Talky HTTP client, modelled in Dafny

Talky is a small typed HTTP client for Swift. A caller issues `GET`, `POST`,
`PUT` or `DELETE` in one of three modes:

- raw `Data`;
- untyped `Any`;
- typed, with `Decodable` success and error payloads.

Each call runs through one funnel:

1. `RequestBuilder` builds a `URLRequest` from the URL, the verb, an optional
   header dictionary and, for `POST`/`PUT`, an encoded body.
2. `HTTPClient.perform` hands the request to the session. It then dispatches
   the `(data, response, error)` triple the data task reports.
3. `proceedResponse` tells a valid status from an invalid one and decodes the
   body as the success type or the error type.
4. `handleError` sorts every thrown value into the `RequestError` taxonomy.

The completion handler is called exactly once per call. The model therefore
computes the single `Completion` a call ends in:

- `Delivered(result)` with the `RequestResult` passed to `completion`;
- `Trapped(message)` where the code stops at `fatalError`.

The modules follow the source files:

| module | file | contents |
|---|---|---|
| `Foundation` | `foundation.dfy` | `URLRequest`, `HTTPURLResponse` and the error types, as values; `setValue`/`addValue` on a request's header table |
| `Methods` | `http_method.dfy` | `HTTPMethod` and the `URLRequest.method` property |
| `Fields` | `http_header_field.dfy` | the header-name catalog `HTTPHeaderField`, its raw values and `init(rawValue:)` |
| `Headers` | `http_header_field.dfy` | the `URLRequest` extension that reads and writes headers by field |
| `Errors` | `request_error.dfy` | `RequestError` |
| `Building` | `request_builder.dfy` | the class `RequestBuilder` with both `buildURLRequest` overloads, each specified by a function and lemmas |
| `Client` | `http_client.dfy` | `RequestResult`, the classification functions, and the class `HTTPClient` with the three `perform` overloads and the twelve entry points |
| `Scenarios` | `scenarios.dfy` | the test suite's mock session and its eight calls |

How the environment is modelled:

- The session is a function from the request handed to the data task to the
  triple the task reports.
- Encoders and decoders are fallible functions passed in for the types of the
  call.
- Whether the encoder or the decoder is the JSON one is a boolean field.
- A Swift dictionary that the code iterates is a sequence of pairs, in
  iteration order, whose keys have distinct wire names. `HTTPHeaderField`
  is `RawRepresentable`, so two keys are equal exactly when their raw
  values are: `.custom(key: "Accept")` and `.accept` are one key.

The code departs from common HTTP practice, or from what its own names
suggest, in these places; the model follows the code:

- `validateResponse` accepts the closed range 200...300, so 300 is a success.
- The raw `Data` mode still runs `responseDecoder` on both bodies. It
  decodes `Data` from the response rather than passing the bytes through.
- The raw and untyped `PUT` overloads build a `POST` request. The raw and
  untyped `DELETE` overloads build a `GET` request. Only the typed overloads
  send their own verb.
- The JSON `Content-Type` is added with `addValue`. It is appended to a
  `Content-Type` the caller supplied rather than skipped.
- The untyped builder is declared `throws` but never throws. It is modelled
  as a method that always returns a request.
- The raw `Data` `perform` sets no `Accept` header.

## Model

| member | source | states |
|---|---|---|
| Methods.RawValue | Sources/HTTPMethod.swift:13-21 | the upper-case verb of each of the nine methods; `RawValueRoundTrip` and `FromRawValue` state that it is inverted by parsing |
| Fields.RawValue | Sources/HTTPHeaderField.swift:126-198 | the wire name of each of the 33 named fields, and the key of a custom field; `NamedRoundTrip` and `ParseThenPrint` state that it and parsing invert each other |
| Fields.FromRawValue | Sources/HTTPHeaderField.swift:52-124 | `init(rawValue:)`: the named field with exactly that wire name, else `custom` of the string; its meaning is stated by `ParseThenPrint`, `NamedRoundTrip` and `CustomExactlyForUnlistedNames` |
| Headers.Value | Sources/HTTPHeaderField.swift:208-210 | `value(forHeaderField:)` reads the header stored under the field's wire name; `ValueAgreesWithHeaderFields`, `SetValue` and `AddValue` relate it to the other operations |
| Foundation.HTTPHeaderValue | Sources/HTTPHeaderField.swift:209 | `value(forHTTPHeaderField:)`: the entry under the name, none without a table; what `setValue` and `addValue` do to it is stated by `SetHTTPHeaderValue`, `AddHTTPHeaderValue` and their `KeepsOthers` lemmas |
| Building.StoreHeaders | Sources/RequestBuilder.swift:26-28 | the request after the `forEach` loop has stored the entries in order; `StoreHeadersLookup` states what it holds under each name |
| Building.BuiltRequest | Sources/RequestBuilder.swift:22-30 | the untyped builder's result; its contents are stated by `BuiltRequestContents` |
| Building.BuiltRequestWithBody | Sources/RequestBuilder.swift:32-48 | the typed builder's result or thrown error; stated by `BuiltRequestWithBodyOutcome` and `BuiltRequestWithBodyHeaders` |
| Client.HandleSuccess | Sources/HTTPClient.swift:400-404 | delivers the response and the decoded body as a success; `ProceedResponseOutcome` states when this happens |
| Client.ProceedResponse | Sources/HTTPClient.swift:313-345 | the status check, then the matching decoder; its outcomes are stated both ways by `ProceedResponseOutcome` |
| Client.Dispatch | Sources/HTTPClient.swift:254-263 | the switch over the data task's triple; stated by `DispatchOutcome` |
| Client.TypedRequest | Sources/HTTPClient.swift:287-290 | the typed `perform`'s local copy of the request; stated by `TypedRequestContents` |
| Client.AnyResultAsWritten | Sources/HTTPClient.swift:268-283 | the untyped completion as written; `AnyResultAsWrittenTrapsOnEveryFailure` states that every failure stops at `fatalError` |
| Client.AnyResult | Sources/HTTPClient.swift:268-283 | the untyped completion corrected; `AnyResultKeepsOutcome` states that it keeps the outcome of the typed call |
| Client.DataCall | Sources/HTTPClient.swift:55-68 | a raw-mode call from the builder's result: a build error goes to `handleError`, a request to the session and `Dispatch`; `BuildFailureSkipsTransport` and the raw entry points' contracts use it |
| Client.TypedCall | Sources/HTTPClient.swift:85-98 | the same in typed mode, with the `Accept` treatment; used by `BuildFailureSkipsTransport` and the typed entry points' contracts |
| Client.AnyCall | Sources/HTTPClient.swift:70-83 | the same in the corrected untyped mode; used by `BuildFailureSkipsTransport` and the untyped entry points' contracts |
| Methods.FromRawValue | Sources/HTTPMethod.swift:12-22 | parsing gives a method exactly when the string is that method's upper-case verb |
| Methods.RawValueRoundTrip | Sources/HTTPMethod.swift:12-22 | every one of the nine methods parses back from its verb |
| Methods.LowerCaseVerbsAreRejected | Sources/HTTPMethod.swift:12-22 | lower-case verbs name no method |
| Methods.MethodOf | Sources/HTTPMethod.swift:27-32 | the getter yields method `v` exactly when the method string is `v`'s verb; it yields none without a method string or for an unknown string |
| Methods.WithMethod | Sources/HTTPMethod.swift:33-35 | get-after-set returns the method assigned; assigning nil clears the method string; URL, headers and body are kept |
| Methods.SetThenSetOverwrites | Sources/HTTPMethod.swift:27-35 | a second assignment overwrites the first |
| Fields.ParseThenPrint | Sources/HTTPHeaderField.swift:52-198 | for every string, printing the parsed field gives the string back |
| Fields.ParseThenPrintEverywhere | Sources/HTTPHeaderField.swift:52-198 | the same fact, for all strings at once |
| Fields.NamedRoundTrip | Sources/HTTPHeaderField.swift:52-198 | each of the 33 named fields parses back from its wire name |
| Fields.CustomExactlyForUnlistedNames | Sources/HTTPHeaderField.swift:121-122 | a string parses to `custom` exactly when it is the wire name of no named field, and then to `custom` of that very string |
| Fields.CustomPrintsItsKey | Sources/HTTPHeaderField.swift:195-196 | a custom field prints as its key |
| Fields.MatchingIsCaseSensitive | Sources/HTTPHeaderField.swift:54-55 | matching is exact: only `x-api-key` names `xAPIKey`; `X-API-Key` and `accept` are custom |
| Fields.Canonical | Sources/HTTPHeaderField.swift:52-198 | the field a wire name denotes prints the same and is a fixed point of parsing |
| Fields.SameWireNameIffSameCanonical | Sources/HTTPHeaderField.swift:52-198 | two fields share a wire name exactly when they denote the same field |
| Headers.HeaderFields | Sources/HTTPHeaderField.swift:204-206 | nil exactly without a header table; otherwise each raw header appears under its parsed field with its value unchanged, and every key is a parsed field whose wire name is in the table |
| Headers.ValueAgreesWithHeaderFields | Sources/HTTPHeaderField.swift:204-210 | `value(forHeaderField:)` finds a value exactly when `headerFields` holds one for the field the wire name denotes, and the two values agree |
| Headers.SetValue | Sources/HTTPHeaderField.swift:212-214 | the field now reads the value given (none removes it); every other wire name, the URL, the method and the body are kept |
| Headers.AddValue | Sources/HTTPHeaderField.swift:216-218 | the field now reads its old value with the new one appended after a comma, or the new one alone; nothing else changes |
| Foundation.SetHTTPHeaderValue | Sources/RequestBuilder.swift:27 | the name now reads the value given; URL, method and body are kept; a value creates the header table |
| Foundation.SetHTTPHeaderValueKeepsOthers | Sources/RequestBuilder.swift:27 | storing under one name leaves every other name's value alone |
| Foundation.AddHTTPHeaderValue | Sources/RequestBuilder.swift:42 | the name now reads the old value, a comma and the new value, or the new value alone |
| Foundation.AddHTTPHeaderValueKeepsOthers | Sources/RequestBuilder.swift:42 | appending under one name leaves every other name's value alone |
| Errors.MapBody | Sources/RequestError.swift:12-20 | converting the payload keeps the case, the response and the wrapped error; only an `apiError` body is converted |
| Building.StoreHeadersLookup | Sources/RequestBuilder.swift:26-28 | after the header loop, each name holds the value of the last entry with that wire name, or its earlier value; URL, method and body are kept; the table exists unless it did not and there were no entries |
| Building.StoreHeadersLookupAll | Sources/RequestBuilder.swift:26-28 | the same, for every name at once |
| Building.LastValueOfEntry | Sources/RequestBuilder.swift:26-28 | in a dictionary, every entry is the one whose value its wire name ends up holding |
| Building.LastValueAbsent | Sources/RequestBuilder.swift:26-28 | a name no entry spells ends up with no stored value |
| Building.SameEntriesSameSpelling | Sources/RequestBuilder.swift:26-28 | two iterations of the same entries spell the same wire names |
| Building.SameEntriesSameLastValue | Sources/RequestBuilder.swift:26-28 | two iterations of the same dictionary leave the same value under every name |
| Building.BuiltRequestIgnoresOrder | Sources/RequestBuilder.swift:22-30 | the built request does not depend on the order in which the header dictionary is iterated |
| Foundation.HeaderTableDeterminedByLookups | Sources/RequestBuilder.swift:27 | two requests that read the same under every name, with tables both present or both absent, have the same header table |
| Building.BuiltRequestContents | Sources/RequestBuilder.swift:22-30 | the untyped builder's request has the URL, the method's verb (which reads back as the method) and no body; every header holds the last supplied value for its wire name; there is no table exactly when no header was supplied; every supplied field reads back its value; a name no supplied field spells has no header |
| Building.BuiltRequestWithBodyOutcome | Sources/RequestBuilder.swift:32-48 | it throws exactly when `POST`/`PUT` has a body that fails to encode, and then throws the encoder's error; any other method and a nil body give exactly the untyped builder's request; the body is present exactly for `POST`/`PUT` with a body, and is the encoder's output |
| Building.BuiltRequestWithBodyHeaders | Sources/RequestBuilder.swift:41-43 | with an encoded body, the JSON encoder appends the JSON media type to `Content-Type`; every other header of the untyped request is kept; any other encoder adds nothing |
| Building.RequestBuilder.constructor | Sources/RequestBuilder.swift:20 | the parameter encoder starts out as the JSON encoder |
| Building.RequestBuilder.BuildURLRequest | Sources/RequestBuilder.swift:22-30 | the loop stores each header in order; the result is the request `BuiltRequestContents` describes |
| Building.RequestBuilder.BuildURLRequestWithBody | Sources/RequestBuilder.swift:32-48 | the result is the outcome `BuiltRequestWithBodyOutcome` and `BuiltRequestWithBodyHeaders` describe, for the builder's encoder |
| Client.ValidateResponse | Sources/HTTPClient.swift:347-354 | valid exactly when 200 <= status <= 300 |
| Client.ValidateResponseBounds | Sources/HTTPClient.swift:347-354 | 200 and 300 are valid; 199, 301, 400 and 404 are not |
| Client.HandleError | Sources/HTTPClient.swift:381-398 | it stops exactly for a raised error of an unlisted type, with "unknow error occurred"; otherwise it delivers a failure; a `RequestError` is passed on unchanged; a raised error never becomes `unknowError` or `apiError` |
| Client.HandleErrorWrapsRaisedError | Sources/HTTPClient.swift:384-391 | a `URLError`, `DecodingError` or `EncodingError` is delivered wrapped in the case named after its type, holding that very error |
| Client.HandleErrorIsIdempotent | Sources/HTTPClient.swift:386-387 | re-classifying a delivered error delivers it again unchanged |
| Client.ProceedResponseOutcome | Sources/HTTPClient.swift:325-344 | success exactly when the status is valid and the body decodes as the response type, carrying the response and the decoded body; `apiError` exactly when the status is invalid and the body decodes as the error type, carrying the response and the decoded error body; a decoding error from the selected decoder is delivered as `decodingError`; the call stops only on a decoder error of another type |
| Client.DispatchOutcome | Sources/HTTPClient.swift:254-263 | a triple with an HTTP response goes to `proceedResponse` with the data, or empty data; a lone error goes to `handleError`; every other triple stops with "Unexpected Error"; a success implies an HTTP response with a valid status |
| Client.TypedRequestContents | Sources/HTTPClient.swift:287-290 | with the JSON decoder, `Accept` is overwritten with the JSON media type, otherwise kept; every other header, the URL, the method and the body are kept |
| Client.AnyResultAsWrittenTrapsOnEveryFailure | Sources/HTTPClient.swift:268-283 | as written, every failure of the untyped mode stops at `fatalError` |
| Client.AnyResultKeepsOutcome | Sources/HTTPClient.swift:268-283 | corrected, the untyped mode stops exactly when the typed call beneath it stops; a success maps the body to its value; a failure is passed on with its payload boxed |
| Client.BuildFailureSkipsTransport | Sources/HTTPClient.swift:58-67 | when the builder throws, the outcome does not depend on the session, in the raw, typed and untyped modes alike, and an encoding error is delivered as `encodingError` |
| Client.EntryPointVerbs | Sources/HTTPClient.swift:152-245 | a corollary of `BuiltRequestContents` and `BuiltRequestWithBodyOutcome`: requests built with `.post`, `.put`, `.get` and `.delete` carry those verbs, so the verb each overload's contract names is the one it sends |
| Client.HTTPClient.constructor | Sources/HTTPClient.swift:43-50 | the client keeps the session and starts with a fresh builder, the JSON encoder and the JSON decoder |
| Client.HTTPClient.PerformData | Sources/HTTPClient.swift:249-266 | the request reaches the session untouched; the triple is dispatched and both bodies are decoded as data |
| Client.HTTPClient.Perform | Sources/HTTPClient.swift:285-306 | the session receives the request with the typed `Accept` treatment; the triple is dispatched with the two decoders |
| Client.HTTPClient.PerformAny | Sources/HTTPClient.swift:268-283 | corrected: the typed `perform` over `AnyDecodable`, its result converted by the corrected untyped mapping, so a failure is delivered where the code as written stops at `fatalError` |
| Client.HTTPClient.GetData | Sources/HTTPClient.swift:55-68 | builds with `.get` and performs in raw mode |
| Client.HTTPClient.GetAny | Sources/HTTPClient.swift:70-83 | builds with `.get` and performs in the corrected untyped mode |
| Client.HTTPClient.Get | Sources/HTTPClient.swift:85-98 | builds with `.get` and performs in typed mode |
| Client.HTTPClient.PostData | Sources/HTTPClient.swift:102-116 | builds with `.post` and the body; a build error is classified without reaching the session |
| Client.HTTPClient.PostAny | Sources/HTTPClient.swift:118-132 | the same, performed in the corrected untyped mode |
| Client.HTTPClient.Post | Sources/HTTPClient.swift:134-148 | the same, in typed mode |
| Client.HTTPClient.PutData | Sources/HTTPClient.swift:152-166 | builds with `.post` (not `.put`) and the body; a build error is classified without reaching the session |
| Client.HTTPClient.PutAny | Sources/HTTPClient.swift:168-182 | the same as `PutData`, with `.post`, performed in the corrected untyped mode |
| Client.HTTPClient.Put | Sources/HTTPClient.swift:184-198 | builds with `.put` and the body, in typed mode |
| Client.HTTPClient.DeleteData | Sources/HTTPClient.swift:202-215 | builds with `.get` (not `.delete`) and performs in raw mode |
| Client.HTTPClient.DeleteAny | Sources/HTTPClient.swift:217-230 | builds with `.get` and performs in the corrected untyped mode |
| Client.HTTPClient.Delete | Sources/HTTPClient.swift:232-245 | builds with `.delete` and performs in typed mode |
| Scenarios.MockKeyWithoutBody | Tests/Sources/Specs/HTTPClientSpec.swift:35-37 | a request built with the JSON `Accept` header and the typed client's request for the same call are the same registered key |
| Scenarios.MockKeyWithBody | Tests/Sources/Specs/HTTPClientSpec.swift:39-41 | the same for `POST`/`PUT` with an encoded body: the order of `Accept` and `Content-Type` does not matter |
| Scenarios.GetSucceeds | Tests/Sources/Specs/HTTPClientSpec.swift:84-94 | `GET` on the test URL yields the test body with status 200 |
| Scenarios.PostSucceeds | Tests/Sources/Specs/HTTPClientSpec.swift:96-106 | `POST` on the test URL yields the test body with status 200 |
| Scenarios.PutSucceeds | Tests/Sources/Specs/HTTPClientSpec.swift:108-118 | `PUT` on the test URL yields the test body with status 200 |
| Scenarios.DeleteSucceeds | Tests/Sources/Specs/HTTPClientSpec.swift:120-130 | `DELETE` on the test URL yields the test body with status 200 |
| Scenarios.GetFailsWithNotFound | Tests/Sources/Specs/HTTPClientSpec.swift:136-152 | `GET` on the error URL yields `apiError` with status 404 and the error body |
| Scenarios.PostFailsWithBadRequest | Tests/Sources/Specs/HTTPClientSpec.swift:154-170 | `POST` on the error URL yields `apiError` with status 400 and the error body |
| Scenarios.PutFailsWithBadRequest | Tests/Sources/Specs/HTTPClientSpec.swift:172-188 | `PUT` on the error URL yields `apiError` with status 400 and the error body |
| Scenarios.DeleteFailsWithNotFound | Tests/Sources/Specs/HTTPClientSpec.swift:190-206 | `DELETE` on the error URL yields `apiError` with status 404 and the error body |
| Scenarios.UntypedGetOnErrorURL | Sources/HTTPClient.swift:268-283 | on the error URL the typed call beneath the untyped `GET` delivers `apiError` 404; as written the untyped call stops at `fatalError`; corrected, it delivers the same `apiError` with the body boxed |

## Left out

- URLSession's asynchrony is left out: `dataTask`, `resume` and the escaping completion handlers. A call is the single value its completion receives.
- The `currentDataTask` field is left out. It only tracks the in-flight task, which matters only under concurrency. So `perform` and the entry points change no state.
- Real JSON encoding and decoding are left out, and so is `AnyDecodable`, which is not part of this model. Codecs are fallible functions given per call. `body.value` and the boxing of an `AnyDecodable` as `Any` are functions given per call too. `is JSONEncoder` and `is JSONDecoder` are boolean fields.
- Foundation's case-insensitive header storage is not modelled; header names are compared exactly.
- A fresh request's default `httpMethod` is not modelled.
- URL resolution is not modelled: URLs are plain strings, and the test URLs are written out absolute.
- The default session argument of `init(session:)` is left out.
- `lazy` initialization is left out: the builder and the decoder are set up by the constructor.
- `RequestRetrier` and `RequestModifier` are left out. They are declared but never used.
- The commented-out code in `HTTPClient.swift` and `RequestBuilder.swift` is left out.
- The mock session stops at `fatalError` for a request that was not registered. Here such a request gets an empty triple instead, which the client answers with "Unexpected Error".
- The test suite's `completionWithOptinalResults` adapters are left out. The scenarios state the `RequestResult` that the adapters unpack.
- Swift's dictionary iteration order is not modelled: a dictionary is iterated as a sequence in an order the caller fixes. Since its keys have distinct wire names, the built request does not depend on that order (`BuiltRequestIgnoresOrder`).
- Fields.FromRawValue: the single `switch` of `init(rawValue:)` is written as a dispatch on the leading character, then on the whole string. The cases are the same. `NamedRoundTrip`, `CustomExactlyForUnlistedNames` and `ParseThenPrint` state that the result is the same for every string.
- Client.HTTPClient.PerformAny: this method and `GetAny`, `PostAny`, `PutAny` and `DeleteAny`, which call it, model the intended untyped behaviour and deliver every failure; the code as written stops at `fatalError` on every failure of the untyped mode (see "## Findings"; `AnyResultAsWritten` models that).
- Client.HandleError: the unreachable `completion(.failure(.unknowError(error)))` after `fatalError` is not modelled, because nothing reaches it.

## Findings

| source | as written | input that shows it | evidently intended | confidence | as-written member | corrected member |
|---|---|---|---|---|---|---|
| Sources/HTTPClient.swift:268-283 | The untyped `perform` re-throws every failure of the typed call beneath it as a `RequestError<AnyDecodable>`. `handleError` for `RequestResult<Any, Any>` casts to `RequestError<Any>`, a different instantiation of a generic enum, so the cast at line 386 fails and the call stops at `fatalError` on line 395. | An untyped `GET` on a URL whose response has status 404 and a decodable error body | The failure reaches the caller in the same case, with an `apiError` payload boxed as `Any` | medium, not executed | Client.AnyResultAsWrittenTrapsOnEveryFailure | Client.AnyResultKeepsOutcome |
