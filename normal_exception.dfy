/**
  NormalException: an HttpException whose HTTP status is always 400 and
  whose response body is `{message, code}`; the code lives only in the body.
 */
module NormalExceptions {
  import opened Js
  import opened Types

  /**
    A NormalException is determined by the body handed to the HttpException
    constructor; its HTTP status is fixed (see GetStatus).
   */
  datatype NormalException = NormalException(body: FailResponse)
  {
    /** `getStatus()`: the status passed to `super`, always 400. */
    function GetStatus(): (s: int)
      ensures s == BAD_REQUEST
    {
      BAD_REQUEST
    }

    /** `getResponse()`: the `{message, code}` object given to the constructor. */
    function GetResponse(): (r: FailResponse)
      ensures NormalException(r) == this
    {
      body
    }

    /**
      The `message` property HttpException derives from an object response
      whose `message` is a string: that string.
     */
    function Message(): (m: string)
      ensures m == GetResponse().message
    {
      body.message
    }

    /** `toJSON()`: `{error: {message, code}}` copied from the stored body. */
    function ToJson(): (r: HttpFailResponse)
      ensures r.error.message == GetResponse().message
      ensures r.error.code == GetResponse().code
    {
      HttpFailResponse(FailResponse(body.message, body.code))
    }

    /** `toApiResponse()`: the failure envelope with status 400 and no data. */
    function ToApiResponse(): (r: ApiResponse<JsValue>)
      ensures r.statusCode == BAD_REQUEST && !r.status
      ensures r.data == Null
      ensures r.message == GetResponse().message
    {
      ApiResponse(GetStatus(), false, Null, body.message)
    }
  }

  /** `new NormalException(message, code)`: the status ignores `code`. */
  function New(message: string, code: int): (e: NormalException)
    ensures e.GetStatus() == BAD_REQUEST
    ensures e.GetResponse().message == message && e.GetResponse().code == code
  {
    NormalException(FailResponse(message, code))
  }

  /** `NormalException.HTTP_REQUEST_TIMEOUT()`: body code 408, HTTP status still 400. */
  function HttpRequestTimeout(): (e: NormalException)
    ensures e.GetStatus() == BAD_REQUEST
    ensures e.ToJson() == HttpFailResponse(FailResponse("HTTP Request Timeout", REQUEST_TIMEOUT))
    ensures e.ToJson().error.code != e.GetStatus()
  {
    New("HTTP Request Timeout", REQUEST_TIMEOUT)
  }

  /** `NormalException.VALIDATION_ERROR(msg)`: an absent or empty message becomes 'Validation Error'. */
  function ValidationError(msg: Option<string>): (e: NormalException)
    ensures e.GetStatus() == BAD_REQUEST && e.GetResponse().code == BAD_REQUEST
    ensures e.Message() != ""
    ensures msg.Some? && msg.value != "" ==> e.Message() == msg.value
    ensures msg == None || msg == Some("") ==> e.Message() == "Validation Error"
  {
    New(StrOr(msg, "Validation Error"), BAD_REQUEST)
  }

  /** `NormalException.UNEXPECTED(msg)`: an absent or empty message becomes 'Unexpected Error'. */
  function Unexpected(msg: Option<string>): (e: NormalException)
    ensures e.GetStatus() == BAD_REQUEST && e.GetResponse().code == BAD_REQUEST
    ensures e.Message() != ""
    ensures msg.Some? && msg.value != "" ==> e.Message() == msg.value
    ensures msg == None || msg == Some("") ==> e.Message() == "Unexpected Error"
  {
    New(StrOr(msg, "Unexpected Error"), BAD_REQUEST)
  }
}
