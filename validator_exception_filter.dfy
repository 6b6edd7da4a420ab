/**
  ValidationExceptionFilter: turns one class-validator ValidationError, or a
  list of them, into a 422 failure envelope whose message gathers the
  constraint messages and whose data lists `{property, constraints, children}`.
 */
module ValidatorFilter {
  import opened Js
  import opened Text
  import opened Types
  import opened ValidationExceptions

  /** The `{property, constraints, children}` object the filter sends for one error. */
  datatype ErrorSummary = ErrorSummary(property: string, constraints: Option<Constraints>, children: seq<ValidationError>)

  /** The caught value: `ValidationError | ValidationError[]`. */
  datatype Caught = Many(errors: seq<ValidationError>) | One(error: ValidationError)

  /** The envelope's `data`: a list of summaries for a list, one summary for a single error. */
  datatype Data = Summaries(items: seq<ErrorSummary>) | Single(item: ErrorSummary)

  /** The error's own fields, without its value or target. */
  function Summarize(err: ValidationError): ErrorSummary
  {
    ErrorSummary(err.property, err.constraints, err.children)
  }

  /** `err.constraints ? Object.values(err.constraints) : []` */
  function ConstraintValues(c: Option<Constraints>): (vs: seq<string>)
    ensures c.None? ==> vs == []
    ensures c.Some? ==> |vs| == |c.value|
  {
    match c
    case Some(entries) => Values(entries)
    case None => []
  }

  /**
    Every constraint message of the top-level errors, in error order and
    then entry order; the children are not read.
   */
  function AllConstraintValues(errors: seq<ValidationError>): seq<string>
  {
    if errors == [] then []
    else AllConstraintValues(errors[..|errors| - 1]) + ConstraintValues(errors[|errors| - 1].constraints)
  }

  /** A message of the list comes from exactly one place: some error's own constraints. */
  lemma {:induction false} AllConstraintValuesFrom(errors: seq<ValidationError>, v: string)
    ensures v in AllConstraintValues(errors) <==>
            exists i :: 0 <= i < |errors| && v in ConstraintValues(errors[i].constraints)
  {
    if errors != [] {
      var init := errors[..|errors| - 1];
      AllConstraintValuesFrom(init, v);
      assert forall i :: 0 <= i < |init| ==> init[i] == errors[i];
    }
  }

  /** Two lists whose errors have the same constraints, pointwise, give the same messages. */
  lemma {:induction false} MessagesDependOnlyOnConstraints(a: seq<ValidationError>, b: seq<ValidationError>)
    requires |a| == |b|
    requires forall i :: 0 <= i < |a| ==> a[i].constraints == b[i].constraints
    ensures AllConstraintValues(a) == AllConstraintValues(b)
  {
    if a != [] {
      MessagesDependOnlyOnConstraints(a[..|a| - 1], b[..|b| - 1]);
    }
  }

  /** Errors none of which has a constraint message contribute nothing. */
  lemma {:induction false} NoConstraintsNoMessages(errors: seq<ValidationError>)
    requires forall i :: 0 <= i < |errors| ==> ConstraintValues(errors[i].constraints) == []
    ensures AllConstraintValues(errors) == []
  {
    if errors != [] {
      NoConstraintsNoMessages(errors[..|errors| - 1]);
    }
  }

  /**
    `ValidationExceptionFilter.catch`: always 422. For a list, `data` holds
    one summary per error, in order, and `message` joins every top-level
    constraint message with ', ' (no default, so it may be ''). For a
    single error, `message` joins its constraint messages or falls back to
    'Validation Error'.
   */
  method Catch(exception: Caught) returns (reply: Sent<ApiResponse<Data>>)
    ensures reply.status == UNPROCESSABLE_ENTITY
    ensures reply.body.statusCode == UNPROCESSABLE_ENTITY && !reply.body.status
    ensures exception.Many? ==>
      && reply.body.data.Summaries?
      && |reply.body.data.items| == |exception.errors|
      && (forall i :: 0 <= i < |exception.errors| ==>
            reply.body.data.items[i] == Summarize(exception.errors[i]))
      && reply.body.message == Join(AllConstraintValues(exception.errors), ", ")
    ensures exception.One? ==>
      && reply.body.data == Single(Summarize(exception.error))
      && var joined := Join(ConstraintValues(exception.error.constraints), ", ");
         reply.body.message == if joined != "" then joined else "Validation Error"
  {
    var message := "Validation Error";
    var data: Data;
    match exception {
      case Many(errors) =>
        var messages: seq<string> := [];
        var items: seq<ErrorSummary> := [];
        var i := 0;
        while i < |errors|
          invariant 0 <= i <= |errors|
          invariant |items| == i
          invariant forall k :: 0 <= k < i ==> items[k] == Summarize(errors[k])
          invariant messages == AllConstraintValues(errors[..i])
        {
          var constraints := ConstraintValues(errors[i].constraints);
          if |constraints| > 0 {
            messages := messages + constraints;
          }
          items := items + [Summarize(errors[i])];
          assert errors[..i + 1][..i] == errors[..i];
          i := i + 1;
        }
        assert errors[..i] == errors;
        data := Summaries(items);
        message := Join(messages, ", ");
      case One(error) =>
        var constraints := ConstraintValues(error.constraints);
        var joined := Join(constraints, ", ");
        message := if joined != "" then joined else message;
        data := Single(Summarize(error));
    }
    reply := Sent(UNPROCESSABLE_ENTITY, ApiResponse(UNPROCESSABLE_ENTITY, false, data, message));
  }
}
