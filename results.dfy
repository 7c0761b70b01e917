/**
  The records a web-service call hands to its callbacks
  (WebServiceResponse.swift, WebServiceError.swift) and the callbacks
  themselves, as values a call's outcome can be compared against.
 */
module WebServiceResults {
  import opened Wrappers
  import opened Utf8

  /** Response bytes (`Data`). */
  type Data = seq<byte>

  /** The parts of an `HTTPURLResponse` the layer reads: its status code and URL. */
  datatype HTTPURLResponse = HTTPURLResponse(statusCode: int, url: Option<string>)

  /** A transport error, by its code. */
  datatype NSError = NSError(code: int)

  /** `WebServiceResponse`: status, URL, body and the response it came from. */
  datatype WebServiceResponse = WebServiceResponse(
    statusCode: int, url: Option<string>, body: Data, httpResponse: HTTPURLResponse)

  /** `WebServiceError`: a code, and the response, body and transport error when there are any. */
  datatype WebServiceError = WebServiceError(
    httpErrorCode: int, httpResponse: Option<HTTPURLResponse>, responseBody: Option<Data>, error: Option<NSError>)

  /** One invocation of a caller's callback, with the value it was passed. */
  datatype Callback =
    | SuccessCallback(response: WebServiceResponse)
    | ErrorCallback(error: Option<WebServiceError>)
}
