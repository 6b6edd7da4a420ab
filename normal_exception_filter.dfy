/**
  NormalExceptionFilter: answers a NormalException with the failure
  envelope, using the status already set on the response rather than the
  exception's.
 */
module NormalExceptionFilter {
  import opened Js
  import opened Types
  import opened NormalExceptions

  /**
    `catch`, given the response's current `statusCode` (absent when unset).
    The envelope's `statusCode` is the status sent; the message falls back to
    'An error occurred' when the exception's is empty.
   */
  function Catch(responseStatus: Option<int>, exception: NormalException): (reply: Sent<ApiResponse<JsValue>>)
    ensures responseStatus.Some? && responseStatus.value != 0 ==> reply.status == responseStatus.value
    ensures responseStatus == None || responseStatus == Some(0) ==> reply.status == BAD_REQUEST
    ensures reply.body.statusCode == reply.status
    ensures !reply.body.status && reply.body.data == Null
    ensures exception.Message() != "" ==> reply.body.message == exception.Message()
    ensures exception.Message() == "" ==> reply.body.message == "An error occurred"
  {
    var statusCode := IntOr(responseStatus, BAD_REQUEST);
    Sent(statusCode, ApiResponse(statusCode, false, Null, StrOr(Some(exception.Message()), "An error occurred")))
  }

  /** The status sent depends on the response alone, never on the exception. */
  lemma StatusIgnoresException(responseStatus: Option<int>, a: NormalException, b: NormalException)
    ensures Catch(responseStatus, a).status == Catch(responseStatus, b).status
    ensures Catch(responseStatus, a).body.statusCode == Catch(responseStatus, b).body.statusCode
  {
  }

  /**
    On a response with no status yet, or with 400, the filter sends exactly
    the exception's own `toApiResponse()` envelope, provided its message is
    not empty.
   */
  lemma AgreesWithToApiResponse(responseStatus: Option<int>, exception: NormalException)
    requires responseStatus in {None, Some(0), Some(BAD_REQUEST)}
    requires exception.Message() != ""
    ensures Catch(responseStatus, exception).body == exception.ToApiResponse()
    ensures Catch(responseStatus, exception).status == exception.GetStatus()
  {
  }

  /**
    HTTP_REQUEST_TIMEOUT reaches the client with whatever status the
    response already holds: 408 is sent only when the response held 408
    before the filter ran, and its message is always the timeout's.
   */
  lemma TimeoutStatusFromResponse(responseStatus: Option<int>)
    ensures Catch(responseStatus, HttpRequestTimeout()).status == REQUEST_TIMEOUT <==> responseStatus == Some(REQUEST_TIMEOUT)
    ensures responseStatus.Some? && responseStatus.value != 0 ==>
      Catch(responseStatus, HttpRequestTimeout()).status == responseStatus.value
    ensures Catch(responseStatus, HttpRequestTimeout()).body.message == "HTTP Request Timeout"
  {
  }

  /**
    As written, on a live request: an Express response starts at status 200
    (201 once Nest has applied a POST route's default), so any
    NormalException, HTTP_REQUEST_TIMEOUT included, is sent as a success
    status with `status: false` in its body.
   */
  lemma SentAsSuccessStatus(responseStatus: int, exception: NormalException)
    requires responseStatus == 200 || responseStatus == 201
    ensures Catch(Some(responseStatus), exception).status == responseStatus
    ensures Catch(Some(responseStatus), exception).status != exception.GetStatus()
    ensures !Catch(Some(responseStatus), exception).body.status
  {
  }

  /**
    The filter with the status taken from the exception, `exception.getStatus()`:
    always 400, and the body is the exception's own `toApiResponse()`
    whenever its message is not empty, whatever the response held.
   */
  function CatchIntended(exception: NormalException): (reply: Sent<ApiResponse<JsValue>>)
    ensures reply.status == exception.GetStatus() == BAD_REQUEST
    ensures reply.body.statusCode == reply.status && !reply.body.status && reply.body.data == Null
    ensures exception.Message() != "" ==> reply.body == exception.ToApiResponse()
    ensures exception.Message() == "" ==> reply.body.message == "An error occurred"
  {
    var statusCode := exception.GetStatus();
    Sent(statusCode, ApiResponse(statusCode, false, Null, StrOr(Some(exception.Message()), "An error occurred")))
  }

  /** Corrected and as-written agree exactly when the response held no status, 0 or 400. */
  lemma IntendedAgreesOnUnsetStatus(responseStatus: Option<int>, exception: NormalException)
    ensures CatchIntended(exception) == Catch(responseStatus, exception) <==>
      responseStatus in {None, Some(0), Some(BAD_REQUEST)}
  {
  }
}
