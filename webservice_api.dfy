/**
  The public configuration types of the web-service layer (WebServiceAPI.swift):
  the HTTP method and content-type enumerations with their raw values, and
  the `WebServiceConfig` value with its two initialisers, its preset and its
  header update.
 */
module WebServiceAPI {
  import opened Wrappers

  datatype WebServiceHTTPMethod = POST | GET | PUT | DELETE

  /** The raw value of a method, its own name; it reads back as the same method. */
  function MethodRawValue(m: WebServiceHTTPMethod): (s: string)
    ensures MethodFromRawValue(s) == Some(m)
  {
    match m
    case POST => "POST"
    case GET => "GET"
    case PUT => "PUT"
    case DELETE => "DELETE"
  }

  /** `WebServiceHTTPMethod(rawValue:)`: the method with this raw value, if any. */
  function MethodFromRawValue(s: string): (r: Option<WebServiceHTTPMethod>)
    ensures r.Some? <==> s in {"POST", "GET", "PUT", "DELETE"}
  {
    if s == "POST" then Some(POST)
    else if s == "GET" then Some(GET)
    else if s == "PUT" then Some(PUT)
    else if s == "DELETE" then Some(DELETE)
    else None
  }

  /** Whatever `MethodFromRawValue` accepts is the raw value of the method it returns. */
  lemma MethodFromRawValueInverse(s: string)
    ensures MethodFromRawValue(s).Some? ==> MethodRawValue(MethodFromRawValue(s).value) == s
  {
  }

  /** The one response type there is. */
  datatype WebServiceResponseType = JSON

  /** The raw value of the response type, read back as the JSON body type. */
  function ResponseRawValue(t: WebServiceResponseType): (s: string)
    ensures BodyTypeFromRawValue(s) == Some(WebServiceRequestBodyContentType.JSON)
  {
    "application/json"
  }

  datatype WebServiceRequestBodyContentType = JSON | PlainText

  /** The raw value of a body type, a media type that reads back as the same body type. */
  function BodyRawValue(t: WebServiceRequestBodyContentType): (s: string)
    ensures BodyTypeFromRawValue(s) == Some(t)
  {
    match t
    case JSON => "application/json"
    case PlainText => "text/plain"
  }

  /** `WebServiceRequestBodyContentType(rawValue:)`. */
  function BodyTypeFromRawValue(s: string): (r: Option<WebServiceRequestBodyContentType>)
    ensures r.Some? <==> s in {"application/json", "text/plain"}
  {
    if s == "application/json" then Some(WebServiceRequestBodyContentType.JSON)
    else if s == "text/plain" then Some(PlainText)
    else None
  }

  /** Whatever `BodyTypeFromRawValue` accepts is the raw value of the body type it returns. */
  lemma BodyTypeFromRawValueInverse(s: string)
    ensures BodyTypeFromRawValue(s).Some? ==> BodyRawValue(BodyTypeFromRawValue(s).value) == s
  {
  }

  /** The JSON response type and the JSON body type share one raw value. */
  lemma JsonRawValuesAgree()
    ensures ResponseRawValue(WebServiceResponseType.JSON) == BodyRawValue(WebServiceRequestBodyContentType.JSON)
    ensures ResponseRawValue(WebServiceResponseType.JSON) == "application/json"
  {
  }

  /** The configuration of one web-service call; `timeout` is in seconds and `httpMethod` is the Swift field `method`. */
  datatype WebServiceConfig = WebServiceConfig(
    endpoint: string,
    httpMethod: WebServiceHTTPMethod,
    expectedResponseType: WebServiceResponseType,
    additionalHTTPHeaders: map<string, string>,
    timeout: real,
    certificateName: string,
    certificatePassword: string,
    requestBodyContentType: WebServiceRequestBodyContentType,
    digestAccessAuthUserId: Option<string>,
    digestAccessAuthPassword: Option<string>)

  /** The full initialiser: every argument is stored and digest authentication is off. */
  function FullConfig(endpoint: string, httpMethod: WebServiceHTTPMethod, additionalHTTPHeaders: map<string, string>,
                      requestBodyContentType: WebServiceRequestBodyContentType,
                      expectedResponseType: WebServiceResponseType,
                      timeout: real := 15.0, certificate: string := "", certPass: string := ""): (c: WebServiceConfig)
    ensures c.endpoint == endpoint && c.httpMethod == httpMethod && c.additionalHTTPHeaders == additionalHTTPHeaders
    ensures c.requestBodyContentType == requestBodyContentType && c.expectedResponseType == expectedResponseType
    ensures c.timeout == timeout && c.certificateName == certificate && c.certificatePassword == certPass
    ensures c.digestAccessAuthUserId.None? && c.digestAccessAuthPassword.None?
  {
    WebServiceConfig(endpoint, httpMethod, expectedResponseType, additionalHTTPHeaders, timeout,
                     certificate, certPass, requestBodyContentType, None, None)
  }

  /** The short initialiser: the full one with no additional headers. */
  function Config(endpoint: string, httpMethod: WebServiceHTTPMethod := GET,
                  requestBodyContentType: WebServiceRequestBodyContentType := PlainText,
                  expectedResponseType: WebServiceResponseType := WebServiceResponseType.JSON,
                  timeout: real := 15.0, certificate: string := "", certPass: string := ""): (c: WebServiceConfig)
    ensures c == FullConfig(endpoint, httpMethod, map[], requestBodyContentType, expectedResponseType,
                            timeout, certificate, certPass)
  {
    FullConfig(endpoint, httpMethod, map[], requestBodyContentType, expectedResponseType, timeout, certificate, certPass)
  }

  /** The defaults of the short initialiser. */
  lemma ConfigDefaults(endpoint: string)
    ensures var c := Config(endpoint);
      && c.endpoint == endpoint && c.httpMethod == GET && c.requestBodyContentType == PlainText
      && c.expectedResponseType == WebServiceResponseType.JSON && c.timeout == 15.0
      && c.certificateName == "" && c.certificatePassword == "" && c.additionalHTTPHeaders == map[]
      && c.digestAccessAuthUserId.None? && c.digestAccessAuthPassword.None?
  {
  }

  /** `ProgramsWSConfig`: the preset for the programs service. */
  const ProgramsWSConfig: WebServiceConfig :=
    FullConfig("https://api-dev.aeg.cloud", POST, map["Content-Type" := "application/json"],
               WebServiceRequestBodyContentType.JSON, WebServiceResponseType.JSON, 20.0)

  lemma ProgramsWSConfigPreset()
    ensures ProgramsWSConfig.httpMethod == POST
    ensures ProgramsWSConfig.additionalHTTPHeaders == map["Content-Type" := "application/json"]
    ensures ProgramsWSConfig.requestBodyContentType == WebServiceRequestBodyContentType.JSON
    ensures ProgramsWSConfig.expectedResponseType == WebServiceResponseType.JSON
    ensures ProgramsWSConfig.timeout == 20.0
  {
  }

  /** Header `d` laid over `headers`: every key of `d` takes `d`'s value, every other key keeps its own. */
  function Merge(headers: map<string, string>, d: map<string, string>): (m: map<string, string>)
    ensures m.Keys == headers.Keys + d.Keys
    ensures forall k :: k in d ==> m[k] == d[k]
    ensures forall k :: k in headers && k !in d ==> m[k] == headers[k]
  {
    headers + d
  }

  /** Laying the same headers over twice is the same as once. */
  lemma MergeIdempotent(headers: map<string, string>, d: map<string, string>)
    ensures Merge(Merge(headers, d), d) == Merge(headers, d)
  {
  }

  /**
    `updateAdditionalHTTPHeaders(with:)`: the entries of `d` are written one
    by one, in whatever order the dictionary enumerates them; only the
    header map changes.
   */
  method UpdateAdditionalHTTPHeaders(c: WebServiceConfig, d: map<string, string>) returns (r: WebServiceConfig)
    ensures r == c.(additionalHTTPHeaders := Merge(c.additionalHTTPHeaders, d))
  {
    r := c;
    var pending := d.Keys;
    while pending != {}
      invariant pending <= d.Keys
      invariant r == c.(additionalHTTPHeaders := c.additionalHTTPHeaders + (d - pending))
      decreases |pending|
    {
      var k :| k in pending;
      assert c.additionalHTTPHeaders + (d - (pending - {k}))
          == (c.additionalHTTPHeaders + (d - pending))[k := d[k]];
      r := r.(additionalHTTPHeaders := r.additionalHTTPHeaders[k := d[k]]);
      pending := pending - {k};
    }
    assert d - pending == d;
  }
}
