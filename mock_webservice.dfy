/**
  The test double of the web-service layer (MockWebService.swift): it is
  built holding either a canned response or a canned error and replays it
  to the callbacks on every `execute`, without any network.
 */
module MockWebServices {
  import opened Wrappers
  import opened WebServiceResults

  class MockWebService {
    var successResponse: Option<WebServiceResponse>
    var errorResponse: Option<WebServiceError>

    /** Built by one of the two initialisers: exactly one canned outcome is held. */
    predicate Valid()
      reads this
    {
      successResponse.Some? != errorResponse.Some?
    }

    /** The success initialiser: holds a response with the given fields and no error. */
    constructor WithResponse(statusCode: int, url: Option<string>, body: Data, httpResponse: HTTPURLResponse)
      ensures Valid()
      ensures successResponse == Some(WebServiceResponse(statusCode, url, body, httpResponse))
      ensures errorResponse.None?
    {
      successResponse := Some(WebServiceResponse(statusCode, url, body, httpResponse));
      errorResponse := None;
    }

    /** The error initialiser: holds an error with the given fields and no response. */
    constructor WithError(httpErrorCode: int, httpResponse: HTTPURLResponse, responseBody: Option<Data>,
                          error: Option<NSError>)
      ensures Valid()
      ensures errorResponse == Some(WebServiceError(httpErrorCode, Some(httpResponse), responseBody, error))
      ensures successResponse.None?
    {
      successResponse := None;
      errorResponse := Some(WebServiceError(httpErrorCode, Some(httpResponse), responseBody, error));
    }

    /** The callbacks `execute` fires, in order, for the held outcomes. */
    function Replay(): (fired: seq<Callback>)
      reads this
      ensures |fired| <= 2
      ensures successResponse.Some? <==> |fired| > 0 && fired[0].SuccessCallback?
      ensures forall c :: c in fired && c.SuccessCallback? ==> successResponse == Some(c.response)
      ensures errorResponse.Some? <==> ErrorCallback(errorResponse) in fired
      ensures forall c :: c in fired && c.ErrorCallback? ==> c.error == errorResponse
      ensures |fired| == 2 ==> fired[0].SuccessCallback? && fired[1].ErrorCallback?
      ensures Valid() ==> |fired| == 1
    {
      (if successResponse.Some? then [SuccessCallback(successResponse.value)] else [])
      + (if errorResponse.Some? then [ErrorCallback(errorResponse)] else [])
    }

    /**
      `execute`: calls the success callback with the held response if there is
      one, then the error callback with the held error if there is one. It
      changes nothing, so every call replays the same callbacks.
     */
    method Execute() returns (fired: seq<Callback>)
      ensures fired == Replay()
    {
      fired := [];
      if successResponse.Some? {
        fired := fired + [SuccessCallback(successResponse.value)];
      }
      if errorResponse.Some? {
        fired := fired + [ErrorCallback(errorResponse)];
      }
    }

    /** `abort`: does nothing. */
    method Abort()
      ensures successResponse == old(successResponse) && errorResponse == old(errorResponse)
    {
    }
  }

  /** A mock built with a response fires only the success callback, once, with exactly that response. */
  method SuccessMockFiresSuccessOnce(statusCode: int, url: Option<string>, body: Data, httpResponse: HTTPURLResponse)
      returns (fired: seq<Callback>)
    ensures fired == [SuccessCallback(WebServiceResponse(statusCode, url, body, httpResponse))]
  {
    var mock := new MockWebService.WithResponse(statusCode, url, body, httpResponse);
    fired := mock.Execute();
  }

  /** A mock built with an error fires only the error callback, once, with exactly that error. */
  method ErrorMockFiresErrorOnce(httpErrorCode: int, httpResponse: HTTPURLResponse, responseBody: Option<Data>,
                                 error: Option<NSError>)
      returns (fired: seq<Callback>)
    ensures fired == [ErrorCallback(Some(WebServiceError(httpErrorCode, Some(httpResponse), responseBody, error)))]
  {
    var mock := new MockWebService.WithError(httpErrorCode, httpResponse, responseBody, error);
    fired := mock.Execute();
  }

  /** Executing twice, with an abort in between, replays the same callbacks. */
  method RepeatedExecuteReplays(mock: MockWebService) returns (first: seq<Callback>, second: seq<Callback>)
    ensures first == second
  {
    first := mock.Execute();
    mock.Abort();
    second := mock.Execute();
  }
}
