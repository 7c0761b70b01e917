# Auth-Webservices web-service layer, in Dafny

A model of the web-service layer of the Auth-Webservices Swift library, with
proofs of what it promises. The layer has five parts:

- **Endpoint resolution** (`endpoints.dfy`, module `EndPoints`). An immutable
  endpoint document is walked along a fixed key path per logical API. A global
  gateway may replace every overridable host. A missing or mistyped segment
  throws that lookup's own error. The 32 lookups are constructors of one `Api`
  datatype, and a single `Resolve` gives their meaning. `WebServiceEndPoints`
  is an immutable datatype and every lookup is a function of it, so resolution
  never changes the document and repeated lookups agree.
- **Endpoint errors** (`endpoints_error.dfy`, module `EndPointsErrors`). There
  are 33 cases. `Description` is total, copies the source strings verbatim
  (typos included) and is injective.
- **Configuration** (`webservice_api.dfy`, module `WebServiceAPI`). This holds
  the method and content-type enumerations with their raw values and their
  inverses, and the `WebServiceConfig` value with its two initialisers. It also
  holds the `ProgramsWSConfig` preset and the header update, a loop proved
  against a map merge.
- **The client** (`webservice.dfy`, module `WebServiceCore`, plus the records
  of `results.dfy`). This holds:
  - the request built by each initialiser, as a specification function, with
    step-by-step builder methods proved against it;
  - the session headers;
  - the completion handler's one-callback decision;
  - the two authentication-challenge decisions;
  - the `WebService` class, whose constructors and `Execute` are proved
    against those functions.
- **The query encoder** (`utf8.dfy`, `percent_encoding.dfy`). Percent-encoding
  follows sections 2.1 and 2.3 of RFC 3986 and works over the UTF-8 bytes of a
  string. The parameter string is `k=v` pairs joined by `&`. A decoder and a
  parser undo both, and the proved round trips are:
  - string to UTF-8 and back;
  - bytes to percent-encoding and back, in both directions;
  - parameters to the parameter string and back, for any enumeration order.
- **The mock** (`mock_webservice.dfy`, module `MockWebServices`). It is a
  class holding one canned outcome, which `Execute` replays.

`wrappers.dfy` holds the `Option` and `Result` types.

A dictionary of parameters is modelled as the sequence of its entries, in the
order the dictionary happens to enumerate them, with distinct keys. Nothing
about that order is assumed.

## Model

| member | source | states |
|---|---|---|
| EndPointsErrors.Ordinal | webservice/WebServiceEndPointsError.swift:13-45 | every error case has a position in the declared list of cases |
| EndPointsErrors.AllErrorsComplete | webservice/WebServiceEndPointsError.swift:13-45 | the list of cases is complete and has exactly 33 entries |
| EndPointsErrors.Description | webservice/WebServiceEndPointsError.swift:47-83 | the text of each case, verbatim with its typos; that no two cases share a text is `DescriptionInjective` |
| EndPointsErrors.DescriptionInjective | webservice/WebServiceEndPointsError.swift:47-83 | two cases with the same description are the same case |
| EndPointsErrors.GatewayErrorDescription | webservice/WebServiceEndPointsError.swift:62 | the gateway error's exact description |
| EndPointsErrors.FlagErrorDescription | webservice/WebServiceEndPointsError.swift:63 | the flag error's exact description |
| EndPointsErrors.SubscriptionAPIErrorDescription | webservice/WebServiceEndPointsError.swift:80 | the subscription-API description, with its typos |
| EndPoints.StringAtThreeSteps | webservice/WebServiceEndPoints.swift:41-46 | a three-key walk succeeds with `v` iff the first two keys hold objects and the third holds the string `v` |
| EndPoints.GlobalAPIGatewayEndPoint | webservice/WebServiceEndPoints.swift:17-28 | succeeds with `g` iff `globals` is an object whose `apiGateway` is the string `g`; otherwise throws the gateway error |
| EndPoints.UseGlobalGatewayEndPoint | webservice/WebServiceEndPoints.swift:30-35 | succeeds with `f` iff the top-level flag is the Bool `f`; otherwise throws the flag error |
| EndPoints.KeyPath | webservice/WebServiceEndPoints.swift:40-544 | every lookup walks three keys under `authentication`, `authorization`, `xcms` or `dms` |
| EndPoints.ErrorOf | webservice/WebServiceEndPoints.swift:40-544 | the error each lookup throws when its path is missing or mistyped; what it determines is `LookupOfErrorOf` |
| EndPoints.GatewayOverride | webservice/WebServiceEndPoints.swift:52-372 | the lookups whose result passes through the gateway ternary; each of them reads a host path |
| EndPoints.Resolve | webservice/WebServiceEndPoints.swift:40-544 | a missing path throws the lookup's own error whatever the flag says; a non-overridable lookup returns exactly the string found; an overridable one returns its host if the flag is false, the gateway lookup's result if it is true, and the flag error if the flag is missing or not a Bool |
| EndPoints.PathLookupsIgnoreGatewaySettings | webservice/WebServiceEndPoints.swift:119-173 | rewriting the flag and the globals does not change any non-overridable lookup |
| EndPoints.GatewayReplacesEveryHost | webservice/WebServiceEndPoints.swift:51-56 | with the flag true and a gateway set, every overridable lookup whose host is present returns the gateway |
| EndPoints.OnlyUserProfileHostBypassesGateway | webservice/WebServiceEndPoints.swift:516-524 | every overridable lookup reads a host path, and the only host lookup without the override is the user-profile host |
| EndPoints.LookupOfErrorOf | webservice/WebServiceEndPoints.swift:40-544 | the thrown error gives the lookup back, up to the two groups of lookups that reuse an error |
| EndPoints.SharedLookupErrors | webservice/WebServiceEndPoints.swift:516-544 | two lookups share an error only among the search-host and the two user-profile lookups, or the device-lookup and the guide-schedule lookups |
| EndPoints.ErrorsNoPathThrows | webservice/WebServiceEndPoints.swift:40-544 | no lookup's own error is the gateway, flag, metadata-API or collection-API error |
| Utf8.DecodeEncode | webservice/WebService.swift:341-345 | UTF-8 decoding the encoding of any string gives the string back |
| Utf8.Encode | webservice/WebService.swift:123 | the UTF-8 bytes of a string, whose length lies between the number of characters and four times it; `DecodeEncode` is its inverse |
| PercentEncoding.EncodeQueryValue | webservice/WebService.swift:341-345 | the query-value encoding of a string is always well-formed percent-encoded text; its inverse is `QueryValueRoundTrip` |
| PercentEncoding.EncodeByte | webservice/WebService.swift:341-345 | an unreserved byte is kept as its character; any other byte becomes `%` and two upper-case hex digits of its value |
| PercentEncoding.PercentEncode | webservice/WebService.swift:341-345 | every output character is `%` or unreserved |
| PercentEncoding.PercentDecodeEncode | webservice/WebService.swift:341-345 | percent-decoding an encoding gives the bytes back |
| PercentEncoding.PercentEncodeDecode | webservice/WebService.swift:341-345 | whatever the strict decoder accepts is the encoding of its result, so the encoder is a bijection onto those strings |
| PercentEncoding.EncodedHasNoDelimiters | webservice/WebService.swift:341-345 | an encoded string contains no `&`, `=` or `?` |
| PercentEncoding.QueryValueRoundTrip | webservice/WebService.swift:341-345 | the query-value encoding of any string decodes back to it and holds no `&`, `=` or `?` |
| PercentEncoding.QueryValueUnreservedUnchanged | webservice/WebService.swift:341-345 | a string of ASCII letters, digits and `-._~` is its own encoding |
| PercentEncoding.SplitJoin | webservice/WebService.swift:366 | splitting a join on its separator gives the pieces back when no piece contains it |
| PercentEncoding.EncodePairs | webservice/WebService.swift:360-364 | one `encKey=encValue` piece per entry, in enumeration order |
| PercentEncoding.StringFromHttpParameters | webservice/WebService.swift:359-367 | the encoded pairs joined by `&`; that it parses back is `ParseStringFromHttpParameters` |
| PercentEncoding.ParseStringFromHttpParameters | webservice/WebService.swift:359-367 | parsing the parameter string gives back the entries in the order they were written |
| PercentEncoding.ParametersRecoverDictionary | webservice/WebService.swift:359-367 | whatever order a dictionary is enumerated in, parsing its parameter string recovers the dictionary |
| WebServiceAPI.MethodFromRawValue | webservice/WebServiceAPI.swift:42-47 | accepts exactly the four method names |
| WebServiceAPI.MethodRawValue | webservice/WebServiceAPI.swift:42-47 | the raw value of every method reads back as that method, so distinct methods have distinct raw values |
| WebServiceAPI.MethodFromRawValueInverse | webservice/WebServiceAPI.swift:42-47 | whatever the raw-value initialiser accepts is the raw value of the method it returns |
| WebServiceAPI.BodyTypeFromRawValue | webservice/WebServiceAPI.swift:62-65 | accepts exactly `application/json` and `text/plain` |
| WebServiceAPI.BodyRawValue | webservice/WebServiceAPI.swift:62-65 | the raw value of every body type reads back as that body type |
| WebServiceAPI.BodyTypeFromRawValueInverse | webservice/WebServiceAPI.swift:62-65 | whatever the body-type raw-value initialiser accepts is the raw value of the body type it returns |
| WebServiceAPI.ResponseRawValue | webservice/WebServiceAPI.swift:57-59 | the response type's raw value reads back as the JSON body type |
| WebServiceAPI.JsonRawValuesAgree | webservice/WebServiceAPI.swift:57-65 | the JSON response type and the JSON body type share the raw value `application/json` |
| WebServiceAPI.FullConfig | webservice/WebServiceAPI.swift:121-137 | every argument is stored and both digest fields are nil |
| WebServiceAPI.Config | webservice/WebServiceAPI.swift:102-114 | the short initialiser is the full one with an empty header map |
| WebServiceAPI.ConfigDefaults | webservice/WebServiceAPI.swift:102-113 | the defaults are GET, plain text, JSON, 15 s, empty certificate name and password, no headers |
| WebServiceAPI.ProgramsWSConfigPreset | webservice/WebServiceAPI.swift:78-83 | the preset is POST with `Content-Type: application/json`, JSON body and response, 20 s |
| WebServiceAPI.Merge | webservice/WebServiceAPI.swift:140-142 | the keys are the union; keys of the update take its values; other keys keep theirs |
| WebServiceAPI.MergeIdempotent | webservice/WebServiceAPI.swift:140-142 | applying the same update twice equals applying it once |
| WebServiceAPI.UpdateAdditionalHTTPHeaders | webservice/WebServiceAPI.swift:140-142 | the loop of single-key updates, in any order, yields the merge, and no other field changes |
| WebServiceCore.BaseURL | webservice/WebService.swift:92-97 | the endpoint alone when the API path is nil or empty, otherwise the endpoint followed by the API path |
| WebServiceCore.HasHttpPrefix | webservice/WebService.swift:90 | the scheme check on the endpoint: its first four characters, lower-cased, are `http` |
| WebServiceCore.URLFor | webservice/WebService.swift:101-105 | the URL of both initialisers (also lines 155-159): it starts with the base URL; `URLForQuery` states the query |
| WebServiceCore.HeadersFor | webservice/WebService.swift:120 | the request sets only `Content-Type`, to `application/json`, and exactly when the body is JSON (also line 174) |
| WebServiceCore.BodyFor | webservice/WebService.swift:115-125 | a body exists iff the method is POST or PUT and the parameters are present; it is JSON iff the configured body type is JSON |
| WebServiceCore.ParamsRequest | webservice/WebService.swift:85-126 | the params initialiser's request: its URL starts with the base URL, its method string reads back as the configured method, its timeout is the configured one, and it sets no header but `Content-Type` |
| WebServiceCore.TwoMapRequest | webservice/WebService.swift:139-180 | the two-map initialiser's request, with the same guarantees on URL, method, timeout and headers |
| WebServiceCore.URLForQuery | webservice/WebService.swift:101-105 | the URL is the base alone iff there is no non-empty query; otherwise base, `?`, and a string that parses back to the query |
| WebServiceCore.ParamsRequestQuery | webservice/WebService.swift:101-105 | the params initialiser adds a query iff the parameters are present, non-empty and the method is not POST, and that query parses back to them |
| WebServiceCore.BodyForParams | webservice/WebService.swift:115-125 | a body is set iff the method is POST or PUT and parameters are present (even empty); JSON carries the dictionary plus `Content-Type`; plain text is UTF-8 that parses back to the parameters, with no header |
| WebServiceCore.PutSendsParamsTwice | webservice/WebService.swift:101-125 | a PUT with parameters carries them both in the query and in a body |
| WebServiceCore.TwoMapRequestSplitsParams | webservice/WebService.swift:153-179 | the two-map URL depends on neither the method nor the body parameters; its body is built from the body parameters only |
| WebServiceCore.TwoMapRequestQuery | webservice/WebService.swift:155-159 | for every method, POST included, the two-map URL is the base alone iff there are no non-empty URL parameters; otherwise base, `?`, and a string that parses back to them |
| WebServiceCore.BuildRequest | webservice/WebService.swift:92-126 | the step-by-step request of the params initialiser is `ParamsRequest` |
| WebServiceCore.BuildTwoMapRequest | webservice/WebService.swift:146-179 | the step-by-step request of the two-map initialiser is `TwoMapRequest` |
| WebServiceCore.SetBody | webservice/WebService.swift:115-125 | the body step sets exactly `BodyFor` and its header |
| WebServiceCore.SessionHeaders | webservice/WebService.swift:190-193 | `Accept` is the expected response type's raw value; every other key is present and valued as configured |
| WebServiceCore.SessionHeadersAcceptJson | webservice/WebService.swift:191-193 | the session headers are the configured ones merged with `Accept: application/json` |
| WebServiceCore.Complete | webservice/WebService.swift:197-232 | success iff data and response are present with a 2xx status, carrying status, URL, body and response; missing data or response gives the transport error's code with no response and no body; otherwise an error carrying the status, response, body and transport error |
| WebServiceCore.IsSuccessStatus | webservice/WebService.swift:216 | the 2xx test: a status code from 200 to 299 |
| WebServiceCore.CompleteErrorCode | webservice/WebService.swift:224-231 | an error that carries a response has a non-2xx code and a body |
| WebServiceCore.SessionChallengeDecision | webservice/WebService.swift:248-270 | always `useCredential`: the identity extracted from the configured certificate for a client-certificate challenge, otherwise the presented server trust |
| WebServiceCore.DigestChallengeDecision | webservice/WebService.swift:278-297 | `useCredential` iff user and password are both set, with those values and no persistence; otherwise cancel with no credential |
| WebServiceCore.InitialisedConfigCancelsDigest | webservice/WebService.swift:282-296 | a configuration from either initialiser, with any arguments, cancels every digest challenge |
| WebServiceCore.WebService.WithParams | webservice/WebService.swift:85-126 | stores the configuration and the request `ParamsRequest` builds, with no session yet |
| WebServiceCore.WebService.WithURLAndBodyParams | webservice/WebService.swift:139-180 | stores the configuration and the request `TwoMapRequest` builds |
| WebServiceCore.WebService.WithConfig | webservice/WebService.swift:71-73 | the params initialiser with no API and no parameters: URL is the endpoint, no body, no header |
| WebServiceCore.WebService.WithEndpoint | webservice/WebService.swift:39-60 | builds the configuration from its arguments and defaults, then acts as `init(config:)` |
| WebServiceCore.WebService.Execute | webservice/WebService.swift:183-237 | sets the session headers, fires exactly one callback (the one `Complete` decides) and changes nothing else |
| MockWebServices.MockWebService.WithResponse | webservice/MockWebService.swift:16-20 | holds a response with exactly the given fields and no error |
| MockWebServices.MockWebService.WithError | webservice/MockWebService.swift:22-26 | holds an error with exactly the given fields and no response |
| MockWebServices.MockWebService.Replay | webservice/MockWebService.swift:28-35 | success first if a response is held, then error if one is held; exactly one callback for a mock from either initialiser |
| MockWebServices.MockWebService.Execute | webservice/MockWebService.swift:28-35 | fires the callbacks `Replay` lists, changing nothing |
| MockWebServices.MockWebService.Abort | webservice/MockWebService.swift:37-39 | changes nothing |
| MockWebServices.SuccessMockFiresSuccessOnce | webservice/MockWebService.swift:16-35 | a mock built with a response fires only the success callback, once, with that response |
| MockWebServices.ErrorMockFiresErrorOnce | webservice/MockWebService.swift:22-35 | a mock built with an error fires only the error callback, once, with that error |
| MockWebServices.RepeatedExecuteReplays | webservice/MockWebService.swift:28-39 | executing again, even after an abort, fires the same callbacks |

## Left out

- Network I/O: creating the session, the data task, `resume` and `invalidateAndCancel` (webservice/WebService.swift:194-197, 206, 221, 228, 236) belong to Foundation. `Execute` takes the completion's `(data, response, error)` as arguments, and the session holds only its headers.
- `abort` of `WebService` (webservice/WebService.swift:241-244) only cancels the session through Foundation. It is not modelled, nor is its crash when `execute` never ran.
- The retry noted at webservice/WebService.swift:8 is not implemented in the source and is not modelled.
- `extractIdentity` (webservice/WebService.swift:300-327) reads a bundle file and imports PKCS#12 through the Security framework. Its result enters `SessionChallengeDecision` as a function argument, applied to the configured certificate name and password.
- The digest handshake of RFC 2617 and TLS trust evaluation are left to the platform. Only the disposition and the credential chosen are modelled.
- `challenge.sender?.use(credential, for:)` (webservice/WebService.swift:264) is a Foundation side effect and is not modelled. The completion handler's arguments are.
- `urlSession(_:didBecomeInvalidWithError:)` (webservice/WebService.swift:272-274) only logs. No logging is modelled.
- JSON serialisation of a body is not modelled, because the helper that does it is not part of this model. A JSON body is the opaque value `JsonBody(dictionary)`.
- `URL(string:)!` is not modelled. A URL is the composed string, and a string `URL` would reject is not detected.
- WebServiceCore.HasHttpPrefix: the debug `assert` on the endpoint scheme becomes a precondition. It lower-cases ASCII only, not full Unicode `lowercased()`.
- WebServiceCore.Complete: the forced casts `response as! HTTPURLResponse` and `nsError as! NSError` are not modelled. The response type is `HTTPURLResponse`, so a non-HTTP response cannot be expressed. The transport error is a precondition when data or response is missing.
- The `as! String` casts on parameter keys and values are not modelled: parameters are typed as string pairs.
- EndPoints.UseGlobalGatewayEndPoint: `NSNumber` bridging that lets a JSON number pass `as? Bool` is not modelled. Only the Bool variant is a flag.
- The `Double` timeout is carried as a `real` and only passed through.
- The Swift optional result of `stringByAddingPercentEncodingForURLQueryValue` is not modelled. Every Swift string is valid Unicode, so the force-unwrap in `stringFromHttpParameters` never fails, and `EncodeQueryValue` is total.
- The `username` and `password` fields of `WebService` are never read in the source. They start as nil and are only carried.
- The `description` and `debugDescription` texts of the configuration, response and error records are Foundation string interpolation, and are not modelled.
- MockWebServices.MockWebService.WithResponse: the success initialiser accepts any `URLResponse`, but it is modelled with an `HTTPURLResponse`.
- WebServiceCore.SessionChallengeDecision: a server-trust challenge is required to carry a server trust. The crash of the forced unwrap of `serverTrust` (webservice/WebService.swift:259, 267) when it has none is not modelled.
- WebServiceCore.Complete: the log messages force-unwrap the response URL (webservice/WebService.swift:217, 225-226), so the source crashes on a response without a URL. The model fires the callback for such a response instead. WebServiceCore.WebService.Execute inherits this.
- WebServiceAPI.Merge: Swift compares `String` keys by canonical equivalence, while Dafny compares sequences of scalar values. Two keys that differ only in Unicode normalisation are one key in Swift and two keys here.
- PercentEncoding.DistinctKeys: for the same reason, keys are distinct here when they differ as scalar sequences, even if Swift would treat them as one dictionary key.
- PercentEncoding.ToMap: for the same reason, the dictionary rebuilt from parameters may keep two keys where the Swift dictionary keeps one.
