/** The response shapes shared by the filters and interceptors. */
module Types {

  /** `FailResponse`: the `{message, code}` body of a NormalException. */
  datatype FailResponse = FailResponse(message: string, code: int)

  /** `HttpFailResponse`: `{error: {message, code}}`. */
  datatype HttpFailResponse = HttpFailResponse(error: FailResponse)

  /** `ApiResponse<T>`: the `{statusCode, status, data, message}` envelope. */
  datatype ApiResponse<D> = ApiResponse(statusCode: int, status: bool, data: D, message: string)

  /** What a filter writes: the HTTP status given to `response.status()` and the body sent. */
  datatype Sent<B> = Sent(status: int, body: B)

  const BAD_REQUEST := 400
  const NOT_FOUND := 404
  const REQUEST_TIMEOUT := 408
  const CONFLICT := 409
  const UNPROCESSABLE_ENTITY := 422
  const INTERNAL_SERVER_ERROR := 500
}
