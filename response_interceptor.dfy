/**
  ResponseInterceptor: wraps whatever a route handler returns in the success
  envelope `{statusCode, status: true, data, message}`. A handler may return
  `{data, message}` to choose both itself.
 */
module ResponseInterceptor {
  import opened Js

  /**
    The success envelope. `data` and `message` keep the JavaScript values the
    handler supplied, so a non-string message is carried as it is.
   */
  datatype SuccessResponse = SuccessResponse(statusCode: int, status: bool, data: JsValue, message: JsValue)

  const DefaultMessage: JsValue := Str("Request successful")

  /** The handler returned a `{data?, message?}` wrapper: a truthy object with a 'data' or a 'message' key. */
  predicate IsWrapper(result: JsValue)
  {
    Truthy(result) && result.Object? && ("data" in result.fields || "message" in result.fields)
  }

  /**
    The `map` callback of `intercept`, given the response's current
    `statusCode` (absent when the response has none).
   */
  function Intercept(responseStatus: Option<int>, result: JsValue): (r: SuccessResponse)
    ensures r.status
    ensures responseStatus.Some? && responseStatus.value != 0 ==> r.statusCode == responseStatus.value
    ensures responseStatus == None || responseStatus == Some(0) ==> r.statusCode == 200
    // Anything but a wrapper is the data itself, with the default message.
    ensures !IsWrapper(result) ==> r.message == DefaultMessage
    ensures !IsWrapper(result) && result != Undefined && result != Null ==> r.data == result
    ensures !IsWrapper(result) && (result == Undefined || result == Null) ==> r.data == Null
    // A wrapper with defined data supplies it; null becomes null and other falsy values stay.
    ensures IsWrapper(result) && Get(result.fields, "data") != Undefined ==>
      r.data == (if result.fields["data"] == Null then Null else result.fields["data"])
    // A wrapper without data is returned whole, its 'message' key included.
    ensures IsWrapper(result) && Get(result.fields, "data") == Undefined ==> r.data == result
    ensures IsWrapper(result) && Truthy(Get(result.fields, "message")) ==> r.message == result.fields["message"]
    ensures IsWrapper(result) && !Truthy(Get(result.fields, "message")) ==> r.message == DefaultMessage
    // The envelope never carries undefined data, and its message is never falsy.
    ensures r.data != Undefined && Truthy(r.message)
  {
    var wrapped := IsWrapper(result);
    var data :=
      if wrapped then
        var d := Get(result.fields, "data");
        if d != Undefined then d else result
      else result;
    var message :=
      if wrapped then Or(Get(result.fields, "message"), DefaultMessage) else DefaultMessage;
    SuccessResponse(IntOr(responseStatus, 200), true, Coalesce(data, Null), message)
  }

  /** The envelope as the JSON object the client receives. */
  function ToJs(r: SuccessResponse): (v: JsValue)
    ensures v.Object? && v.fields.Keys == {"statusCode", "status", "data", "message"}
    ensures v.fields["data"] == r.data && v.fields["message"] == r.message
  {
    Object(map["statusCode" := Num(Int(r.statusCode)), "status" := Bool(r.status),
               "data" := r.data, "message" := r.message])
  }

  /**
    Wrapping is idempotent: a handler that returns an envelope this
    interceptor produced, under the same response status, gets that same
    envelope back rather than a nested one.
   */
  lemma InterceptIdempotent(responseStatus: Option<int>, result: JsValue)
    ensures var r := Intercept(responseStatus, result);
      Intercept(responseStatus, ToJs(r)) == r
  {
    var r := Intercept(responseStatus, result);
    var v := ToJs(r);
    assert IsWrapper(v);
    assert Get(v.fields, "data") == r.data;
  }

  /**
    A bare falsy value other than undefined and null (0, false, '') is kept
    as the data, not replaced by null.
   */
  lemma FalsyDataKept(responseStatus: Option<int>, result: JsValue)
    requires result == Num(Int(0)) || result == Bool(false) || result == Str("")
    ensures Intercept(responseStatus, result).data == result
  {
  }
}
