/**
  class-validator's ValidationError, and CustomValidationException: an
  HttpException with status 400 that keeps the validation errors it was
  built from.
 */
module ValidationExceptions {
  import opened Js
  import opened Types

  /**
    A constraints object `{rule: message, ...}` as its entries in insertion
    order, the order `Object.values` returns them in.
   */
  type Constraints = seq<(string, string)>

  /** class-validator's ValidationError: the failed property, its value, the failed rules and nested errors. */
  datatype ValidationError = ValidationError(
    property: string,
    value: JsValue,
    constraints: Option<Constraints>,
    children: seq<ValidationError>)

  /** `Object.values(constraints)`: the messages, in entry order. */
  function Values(c: Constraints): (vs: seq<string>)
    ensures |vs| == |c|
    ensures forall i :: 0 <= i < |c| ==> vs[i] == c[i].1
  {
    seq(|c|, i requires 0 <= i < |c| => c[i].1)
  }

  /** The `{message, validationErrors}` response body. */
  datatype ValidationBody = ValidationBody(message: string, validationErrors: seq<ValidationError>)

  /** CustomValidationException: its message and the readonly `validationErrors` list. */
  datatype CustomValidationException = CustomValidationException(message: string, validationErrors: seq<ValidationError>)
  {
    /** `getStatus()`: always 400. */
    function GetStatus(): int
    {
      BAD_REQUEST
    }

    /** `getResponse()`: the body passed to `super`. */
    function GetResponse(): ValidationBody
    {
      ValidationBody(message, validationErrors)
    }
  }

  /**
    `new CustomValidationException(message, errors)`: status 400, the list
    stored as given and repeated, the same list, in the body.
   */
  function New(message: string, errors: seq<ValidationError>): (e: CustomValidationException)
    ensures e.GetStatus() == BAD_REQUEST
    ensures e.validationErrors == errors
    ensures e.GetResponse().validationErrors == e.validationErrors
    ensures e.GetResponse().message == message && e.message == message
  {
    CustomValidationException(message, errors)
  }
}
