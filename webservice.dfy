/**
  The production web-service client (WebService.swift): how a call's
  `URLRequest` is built from a configuration and parameters, which headers
  the session sends, how the completion of the data task is turned into
  exactly one callback, and how authentication challenges are answered.
 */
module WebServiceCore {
  import opened Wrappers
  import opened Utf8
  import opened PercentEncoding
  import opened WebServiceAPI
  import opened WebServiceResults

  /** ASCII lower-casing of one character. */
  function Lower(c: char): char
  {
    if 'A' <= c <= 'Z' then (c as int + 32) as char else c
  }

  /** The endpoint, lower-cased, starts with `http` (so it is `http` or `https`). */
  predicate HasHttpPrefix(endpoint: string)
  {
    |endpoint| >= 4 && Lower(endpoint[0]) == 'h' && Lower(endpoint[1]) == 't'
    && Lower(endpoint[2]) == 't' && Lower(endpoint[3]) == 'p'
  }

  /** A request body: JSON made from the parameter dictionary, or raw bytes. */
  datatype Body = JsonBody(params: map<string, string>) | TextBody(bytes: Data)

  /** The parts of a `URLRequest` the client sets; `headers` are the request's own header fields. */
  datatype URLRequest = URLRequest(
    url: string, httpMethod: string, timeoutInterval: real, httpBody: Option<Body>, headers: map<string, string>)

  /** The well-formed parameter argument: absent, or a dictionary (distinct keys). */
  predicate ValidParams(params: Option<Params>)
  {
    params.Some? ==> DistinctKeys(params.value)
  }

  /** The URL before any query: the endpoint, followed by the API path when there is a non-empty one. */
  function BaseURL(endpoint: string, api: Option<string>): (u: string)
    ensures endpoint <= u
    ensures api.Some? && |api.value| > 0 ==> u == endpoint + api.value
    ensures api.None? || |api.value| == 0 ==> u == endpoint
  {
    if api.None? || |api.value| == 0 then endpoint else endpoint + api.value
  }

  /** The base URL, with `?` and the parameter string when `query` holds at least one entry. */
  function URLFor(endpoint: string, api: Option<string>, query: Option<Params>): (u: string)
    ensures BaseURL(endpoint, api) <= u
  {
    if query.None? || |query.value| == 0 then BaseURL(endpoint, api)
    else BaseURL(endpoint, api) + "?" + StringFromHttpParameters(query.value)
  }

  /**
    The body built from `bodyParams`: only for POST and PUT, and only when
    the parameters are there (even when empty); JSON or the UTF-8 of the
    parameter string, by the configured body type.
   */
  function BodyFor(config: WebServiceConfig, bodyParams: Option<Params>): (b: Option<Body>)
    requires ValidParams(bodyParams)
    ensures b.Some? <==> (config.httpMethod == POST || config.httpMethod == PUT) && bodyParams.Some?
    ensures b.Some? ==> (b.value.JsonBody? <==> config.requestBodyContentType.JSON?)
  {
    if (config.httpMethod == POST || config.httpMethod == PUT) && bodyParams.Some? then
      match config.requestBodyContentType
      case JSON => Some(JsonBody(ToMap(bodyParams.value)))
      case PlainText => Some(TextBody(Utf8.Encode(StringFromHttpParameters(bodyParams.value))))
    else None
  }

  /** The request's own headers: `Content-Type: application/json` with a JSON body, none otherwise. */
  function HeadersFor(body: Option<Body>): (h: map<string, string>)
    ensures h.Keys <= {"Content-Type"}
    ensures "Content-Type" in h <==> body.Some? && body.value.JsonBody?
    ensures "Content-Type" in h ==> h["Content-Type"] == BodyRawValue(WebServiceRequestBodyContentType.JSON)
  {
    if body.Some? && body.value.JsonBody? then map["Content-Type" := "application/json"] else map[]
  }

  /** The request of the params initialiser: no query for POST, the same parameters as body. */
  function ParamsRequest(config: WebServiceConfig, api: Option<string>, params: Option<Params>): (r: URLRequest)
    requires ValidParams(params)
    ensures BaseURL(config.endpoint, api) <= r.url
    ensures MethodFromRawValue(r.httpMethod) == Some(config.httpMethod)
    ensures r.timeoutInterval == config.timeout
    ensures r.headers.Keys <= {"Content-Type"}
  {
    var body := BodyFor(config, params);
    URLRequest(URLFor(config.endpoint, api, if config.httpMethod == POST then None else params),
               MethodRawValue(config.httpMethod), config.timeout, body, HeadersFor(body))
  }

  /** The request of the two-map initialiser: `urlParams` in the query for every method, `bodyParams` as body. */
  function TwoMapRequest(config: WebServiceConfig, api: Option<string>,
                         urlParams: Option<Params>, bodyParams: Option<Params>): (r: URLRequest)
    requires ValidParams(bodyParams)
    ensures BaseURL(config.endpoint, api) <= r.url
    ensures MethodFromRawValue(r.httpMethod) == Some(config.httpMethod)
    ensures r.timeoutInterval == config.timeout
    ensures r.headers.Keys <= {"Content-Type"}
  {
    var body := BodyFor(config, bodyParams);
    URLRequest(URLFor(config.endpoint, api, urlParams),
               MethodRawValue(config.httpMethod), config.timeout, body, HeadersFor(body))
  }

  /**
    A URL built with a non-empty query is the base, `?`, and a string that
    parses back to the query; without one it is the base alone.
   */
  lemma URLForQuery(endpoint: string, api: Option<string>, query: Option<Params>)
    ensures var base, u := BaseURL(endpoint, api), URLFor(endpoint, api, query);
      && (u == base <==> query.None? || |query.value| == 0)
      && (query.Some? && |query.value| > 0 ==>
            |u| > |base| && u[..|base| + 1] == base + "?"
            && ParseHttpParameters(u[|base| + 1..]) == Some(query.value))
  {
    var base, u := BaseURL(endpoint, api), URLFor(endpoint, api, query);
    if query.Some? && |query.value| > 0 {
      var q := StringFromHttpParameters(query.value);
      assert u == base + "?" + q;
      assert u[..|base| + 1] == base + "?";
      assert u[|base| + 1..] == q;
      ParseStringFromHttpParameters(query.value);
    }
  }

  /**
    The params initialiser puts the parameters in the query exactly when they
    are present, non-empty and the method is not POST; the query then
    parses back to them.
   */
  lemma ParamsRequestQuery(config: WebServiceConfig, api: Option<string>, params: Option<Params>)
    requires ValidParams(params)
    ensures var base, u := BaseURL(config.endpoint, api), ParamsRequest(config, api, params).url;
      && (u != base <==> params.Some? && |params.value| > 0 && config.httpMethod != POST)
      && (u != base ==> ParseHttpParameters(u[|base| + 1..]) == params)
  {
    URLForQuery(config.endpoint, api, if config.httpMethod == POST then None else params);
  }

  /**
    A request body is set exactly for POST and PUT with parameters present;
    a JSON body carries the dictionary and sets `Content-Type`, a text body
    is UTF-8 that decodes and parses back to the parameters and sets no header.
   */
  lemma BodyForParams(config: WebServiceConfig, bodyParams: Option<Params>)
    requires ValidParams(bodyParams)
    ensures var body := BodyFor(config, bodyParams);
      && (body.Some? <==> (config.httpMethod == POST || config.httpMethod == PUT) && bodyParams.Some?)
      && (body.Some? && config.requestBodyContentType == WebServiceRequestBodyContentType.JSON ==>
            body.value == JsonBody(ToMap(bodyParams.value))
            && HeadersFor(body) == map["Content-Type" := "application/json"])
      && (body.Some? && config.requestBodyContentType == PlainText ==>
            body.value.TextBody? && Utf8.Decode(body.value.bytes).Some?
            && ParseHttpParameters(Utf8.Decode(body.value.bytes).value) == bodyParams
            && HeadersFor(body) == map[])
  {
    if bodyParams.Some? {
      var s := StringFromHttpParameters(bodyParams.value);
      Utf8.DecodeEncode(s);
      ParseStringFromHttpParameters(bodyParams.value);
    }
  }

  /** A PUT with parameters carries them twice: in the query and in the body. */
  lemma PutSendsParamsTwice(config: WebServiceConfig, api: Option<string>, params: Params)
    requires DistinctKeys(params) && |params| > 0 && config.httpMethod == PUT
    ensures var r := ParamsRequest(config, api, Some(params));
      && r.url == BaseURL(config.endpoint, api) + "?" + StringFromHttpParameters(params)
      && r.httpBody.Some?
  {
  }

  /**
    In the two-map initialiser the URL does not depend on the method or the
    body parameters, and the body is the one the params initialiser would
    build from `bodyParams`.
   */
  lemma TwoMapRequestSplitsParams(config: WebServiceConfig, api: Option<string>,
                                  urlParams: Option<Params>, bodyParams: Option<Params>, m: WebServiceHTTPMethod)
    requires ValidParams(bodyParams)
    ensures TwoMapRequest(config.(httpMethod := m), api, urlParams, None).url
         == TwoMapRequest(config, api, urlParams, bodyParams).url
    ensures TwoMapRequest(config, api, urlParams, bodyParams).httpBody
         == ParamsRequest(config, api, bodyParams).httpBody
  {
  }

  /**
    The two-map initialiser puts `urlParams` in the query for every method,
    POST included: the URL is the base alone iff there is no non-empty
    `urlParams`, and otherwise what follows the base and `?` parses back to
    them.
   */
  lemma TwoMapRequestQuery(config: WebServiceConfig, api: Option<string>,
                           urlParams: Option<Params>, bodyParams: Option<Params>)
    requires ValidParams(bodyParams)
    ensures var base, u := BaseURL(config.endpoint, api), TwoMapRequest(config, api, urlParams, bodyParams).url;
      && (u != base <==> urlParams.Some? && |urlParams.value| > 0)
      && (u != base ==> |u| > |base| && u[..|base| + 1] == base + "?"
                        && ParseHttpParameters(u[|base| + 1..]) == urlParams)
  {
    URLForQuery(config.endpoint, api, urlParams);
  }

  /** Builds the params initialiser's request step by step, as the initialiser does. */
  method BuildRequest(config: WebServiceConfig, api: Option<string>, params: Option<Params>)
      returns (request: URLRequest)
    requires ValidParams(params)
    ensures request == ParamsRequest(config, api, params)
  {
    var urlStr := if api.None? || |api.value| == 0 then config.endpoint else config.endpoint + api.value;
    var url;
    if params.None? || |params.value| == 0 || config.httpMethod == POST {
      url := urlStr;
    } else {
      url := urlStr + "?" + StringFromHttpParameters(params.value);
    }
    request := URLRequest(url, "GET", config.timeout, None, map[]);
    request := request.(httpMethod := MethodRawValue(config.httpMethod));
    request := SetBody(request, config, params);
  }

  /** Builds the two-map initialiser's request step by step. */
  method BuildTwoMapRequest(config: WebServiceConfig, api: Option<string>,
                            urlParams: Option<Params>, bodyParams: Option<Params>)
      returns (request: URLRequest)
    requires ValidParams(bodyParams)
    ensures request == TwoMapRequest(config, api, urlParams, bodyParams)
  {
    var urlStr := if api.None? || |api.value| == 0 then config.endpoint else config.endpoint + api.value;
    var url;
    if urlParams.None? || |urlParams.value| == 0 {
      url := urlStr;
    } else {
      url := urlStr + "?" + StringFromHttpParameters(urlParams.value);
    }
    request := URLRequest(url, "GET", config.timeout, None, map[]);
    request := request.(httpMethod := MethodRawValue(config.httpMethod));
    request := SetBody(request, config, bodyParams);
  }

  /** The body step shared by both initialisers: body and `Content-Type` for POST and PUT. */
  method SetBody(request: URLRequest, config: WebServiceConfig, bodyParams: Option<Params>)
      returns (r: URLRequest)
    requires ValidParams(bodyParams) && request.httpBody.None? && request.headers == map[]
    ensures r == request.(httpBody := BodyFor(config, bodyParams), headers := HeadersFor(BodyFor(config, bodyParams)))
  {
    r := request;
    if (config.httpMethod == POST || config.httpMethod == PUT) && bodyParams.Some? {
      match config.requestBodyContentType {
        case JSON =>
          r := r.(httpBody := Some(JsonBody(ToMap(bodyParams.value))));
          r := r.(headers := r.headers["Content-Type" := "application/json"]);
        case PlainText =>
          r := r.(httpBody := Some(TextBody(Utf8.Encode(StringFromHttpParameters(bodyParams.value)))));
      }
    }
  }

  /** The headers the session sends: the configured ones, with `Accept` set to the expected response type. */
  function SessionHeaders(config: WebServiceConfig): (h: map<string, string>)
    ensures "Accept" in h && h["Accept"] == ResponseRawValue(config.expectedResponseType)
    ensures forall k :: k != "Accept" ==>
      (k in h <==> k in config.additionalHTTPHeaders)
      && (k in h ==> h[k] == config.additionalHTTPHeaders[k])
  {
    config.additionalHTTPHeaders["Accept" := ResponseRawValue(config.expectedResponseType)]
  }

  /** The session's `Accept` header overrides a configured one, whatever it said. */
  lemma SessionHeadersAcceptJson(config: WebServiceConfig)
    ensures SessionHeaders(config)["Accept"] == "application/json"
    ensures SessionHeaders(config) == Merge(config.additionalHTTPHeaders, map["Accept" := "application/json"])
  {
  }

  /** A status code the client treats as success: 200 to 299. */
  predicate IsSuccessStatus(statusCode: int)
  {
    200 <= statusCode < 300
  }

  /**
    The completion handler's decision on `(data, response, error)`: missing
    data or response is a transport failure carrying the error's code;
    otherwise a 2xx status succeeds and any other status is an HTTP error
    carrying the response and body. The error must be there when data or
    response is missing.
   */
  function Complete(data: Option<Data>, response: Option<HTTPURLResponse>, nsError: Option<NSError>): (c: Callback)
    requires data.None? || response.None? ==> nsError.Some?
    ensures c.SuccessCallback? <==> data.Some? && response.Some? && IsSuccessStatus(response.value.statusCode)
    ensures c.SuccessCallback? ==>
      c.response.statusCode == response.value.statusCode && c.response.url == response.value.url
      && c.response.body == data.value && c.response.httpResponse == response.value
    ensures c.ErrorCallback? ==> c.error.Some?
    ensures data.None? || response.None? ==>
      c == ErrorCallback(Some(WebServiceError(nsError.value.code, None, None, nsError)))
    ensures data.Some? && response.Some? && c.ErrorCallback? ==>
      c.error.value == WebServiceError(response.value.statusCode, response, data, nsError)
  {
    if data.None? || response.None? then
      ErrorCallback(Some(WebServiceError(nsError.value.code, None, None, nsError)))
    else if IsSuccessStatus(response.value.statusCode) then
      SuccessCallback(WebServiceResponse(response.value.statusCode, response.value.url, data.value, response.value))
    else
      ErrorCallback(Some(WebServiceError(response.value.statusCode, response, data, nsError)))
  }

  /** An error callback's code is the transport error's code or a non-2xx status, never a 2xx one with a response. */
  lemma CompleteErrorCode(data: Option<Data>, response: Option<HTTPURLResponse>, nsError: Option<NSError>)
    requires data.None? || response.None? ==> nsError.Some?
    requires Complete(data, response, nsError).ErrorCallback?
    ensures var e := Complete(data, response, nsError).error.value;
      e.httpResponse.Some? ==> !IsSuccessStatus(e.httpErrorCode) && e.responseBody.Some?
  {
  }

  /** The answer a challenge handler passes to its completion handler. */
  datatype AuthChallengeDisposition = UseCredential | CancelAuthenticationChallenge

  datatype Persistence = PersistenceNone

  /** An opaque server trust object presented by a TLS challenge. */
  datatype SecTrust = SecTrust(id: nat)

  /** An opaque client identity, as `extractIdentity` would build it. */
  datatype SecIdentity = SecIdentity(id: nat)

  datatype URLCredential =
    | IdentityCredential(identity: SecIdentity)
    | TrustCredential(trust: SecTrust)
    | PasswordCredential(user: string, password: string, persistence: Persistence)

  datatype AuthenticationMethod = ClientCertificate | ServerTrust | OtherMethod

  /** The protection space of a challenge: its method and, for TLS, the server's trust. */
  datatype AuthenticationChallenge = AuthenticationChallenge(
    authenticationMethod: AuthenticationMethod, serverTrust: Option<SecTrust>)

  /**
    The session-level challenge delegate. A client-certificate challenge is
    answered with the identity extracted from the configured certificate
    name and password (`extractIdentity`, passed in); any other challenge is
    answered with the server's own trust, unvalidated. The server trust must
    be there for the latter.
   */
  function SessionChallengeDecision(config: WebServiceConfig, challenge: AuthenticationChallenge,
                                    extractIdentity: (string, string) -> Option<URLCredential>)
      : (r: (AuthChallengeDisposition, Option<URLCredential>))
    requires challenge.authenticationMethod != ClientCertificate ==> challenge.serverTrust.Some?
    ensures r.0 == UseCredential
    ensures challenge.authenticationMethod == ClientCertificate ==>
      r.1 == extractIdentity(config.certificateName, config.certificatePassword)
    ensures challenge.authenticationMethod != ClientCertificate ==>
      r.1 == Some(TrustCredential(challenge.serverTrust.value))
  {
    if challenge.authenticationMethod == ClientCertificate then
      (UseCredential, extractIdentity(config.certificateName, config.certificatePassword))
    else
      (UseCredential, Some(TrustCredential(challenge.serverTrust.value)))
  }

  /**
    The task-level digest challenge delegate: the configured user and
    password, not persisted, when both are set; otherwise the challenge is
    cancelled with no credential.
   */
  function DigestChallengeDecision(config: WebServiceConfig): (r: (AuthChallengeDisposition, Option<URLCredential>))
    ensures r.0 == UseCredential <==>
      config.digestAccessAuthUserId.Some? && config.digestAccessAuthPassword.Some?
    ensures r.0 == UseCredential ==>
      r.1 == Some(PasswordCredential(config.digestAccessAuthUserId.value,
                                     config.digestAccessAuthPassword.value, PersistenceNone))
    ensures r.0 == CancelAuthenticationChallenge ==> r.1.None?
  {
    if config.digestAccessAuthUserId.Some? && config.digestAccessAuthPassword.Some? then
      (UseCredential, Some(PasswordCredential(config.digestAccessAuthUserId.value,
                                             config.digestAccessAuthPassword.value, PersistenceNone)))
    else
      (CancelAuthenticationChallenge, None)
  }

  /** A configuration made by either initialiser cancels every digest challenge. */
  lemma InitialisedConfigCancelsDigest(endpoint: string, m: WebServiceHTTPMethod, headers: map<string, string>,
                                       b: WebServiceRequestBodyContentType, t: WebServiceResponseType,
                                       timeout: real, certificate: string, certPass: string)
    ensures DigestChallengeDecision(FullConfig(endpoint, m, headers, b, t, timeout, certificate, certPass))
         == (CancelAuthenticationChallenge, None)
    ensures DigestChallengeDecision(Config(endpoint, m, b, t, timeout, certificate, certPass))
         == (CancelAuthenticationChallenge, None)
  {
  }

  /** The session as far as the client configures it: the headers it adds to every request. */
  datatype URLSession = URLSession(httpAdditionalHeaders: map<string, string>)

  /** `WebService`: one configured call, built by one of its initialisers and run by `Execute`. */
  class WebService {
    var session: Option<URLSession>
    var request: URLRequest
    var webserviceConfiguration: WebServiceConfig
    var username: Option<string>
    var password: Option<string>

    /** `init(config:api:params:)`. */
    constructor WithParams(config: WebServiceConfig, api: Option<string>, params: Option<Params>)
      requires HasHttpPrefix(config.endpoint) && ValidParams(params)
      ensures webserviceConfiguration == config
      ensures request == ParamsRequest(config, api, params)
      ensures session.None? && username.None? && password.None?
    {
      webserviceConfiguration := config;
      var built := BuildRequest(config, api, params);
      request := built;
      session := None;
      username := None;
      password := None;
    }

    /** `init(config:api:urlParams:bodyParams:)`. */
    constructor WithURLAndBodyParams(config: WebServiceConfig, api: Option<string>,
                                     urlParams: Option<Params>, bodyParams: Option<Params>)
      requires HasHttpPrefix(config.endpoint) && ValidParams(bodyParams)
      ensures webserviceConfiguration == config
      ensures request == TwoMapRequest(config, api, urlParams, bodyParams)
      ensures session.None? && username.None? && password.None?
    {
      webserviceConfiguration := config;
      var built := BuildTwoMapRequest(config, api, urlParams, bodyParams);
      request := built;
      session := None;
      username := None;
      password := None;
    }

    /** `init(config:)`: the params initialiser with no API path and no parameters. */
    constructor WithConfig(config: WebServiceConfig)
      requires HasHttpPrefix(config.endpoint)
      ensures webserviceConfiguration == config
      ensures request == ParamsRequest(config, None, None)
      ensures request.url == config.endpoint && request.httpBody.None? && request.headers == map[]
      ensures session.None? && username.None? && password.None?
    {
      webserviceConfiguration := config;
      var built := BuildRequest(config, None, None);
      request := built;
      session := None;
      username := None;
      password := None;
    }

    /** `init(endpoint:...)`: a configuration from the arguments, then `init(config:)`. */
    constructor WithEndpoint(endpoint: string, httpMethod: WebServiceHTTPMethod := GET,
                             requestBodyContentType: WebServiceRequestBodyContentType := PlainText,
                             responseType: WebServiceResponseType := WebServiceResponseType.JSON,
                             timeout: real := 15.0, additionalHTTPHeaders: map<string, string> := map[],
                             certificate: string := "", certPassword: string := "")
      requires HasHttpPrefix(endpoint)
      ensures webserviceConfiguration == FullConfig(endpoint, httpMethod, additionalHTTPHeaders,
                                                    requestBodyContentType, responseType, timeout,
                                                    certificate, certPassword)
      ensures request == ParamsRequest(webserviceConfiguration, None, None)
      ensures session.None? && username.None? && password.None?
    {
      var config := FullConfig(endpoint, httpMethod, additionalHTTPHeaders, requestBodyContentType,
                               responseType, timeout, certificate, certPassword);
      webserviceConfiguration := config;
      var built := BuildRequest(config, None, None);
      request := built;
      session := None;
      username := None;
      password := None;
    }

    /**
      `execute`: configures the session with `SessionHeaders`, runs the
      request and, when the task completes with `(data, response, nsError)`,
      fires exactly one callback, the one `Complete` decides.
     */
    method Execute(data: Option<Data>, response: Option<HTTPURLResponse>, nsError: Option<NSError>)
        returns (fired: seq<Callback>)
      requires data.None? || response.None? ==> nsError.Some?
      modifies this
      ensures session == Some(URLSession(SessionHeaders(webserviceConfiguration)))
      ensures request == old(request) && webserviceConfiguration == old(webserviceConfiguration)
      ensures username == old(username) && password == old(password)
      ensures fired == [Complete(data, response, nsError)]
    {
      var headers := webserviceConfiguration.additionalHTTPHeaders;
      headers := headers["Accept" := ResponseRawValue(webserviceConfiguration.expectedResponseType)];
      session := Some(URLSession(headers));
      fired := [];
      if data.None? || response.None? {
        var wsError := WebServiceError(nsError.value.code, None, None, nsError);
        fired := fired + [ErrorCallback(Some(wsError))];
        return;
      }
      var httpResponse := response.value;
      if httpResponse.statusCode >= 200 && httpResponse.statusCode < 300 {
        var res := WebServiceResponse(httpResponse.statusCode, httpResponse.url, data.value, httpResponse);
        fired := fired + [SuccessCallback(res)];
      } else {
        var wsError := WebServiceError(httpResponse.statusCode, response, data, nsError);
        fired := fired + [ErrorCallback(Some(wsError))];
      }
    }
  }
}
