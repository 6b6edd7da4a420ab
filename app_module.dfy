/**
  The `exceptionFactory` of the global ValidationPipe: it turns the DTO
  validation errors into one CustomValidationException whose message is the
  errors' constraint messages, error by error, joined with ', '.
 */
module AppModule {
  import opened Js
  import opened Text
  import opened ValidationExceptions
  import ValidatorFilter

  /**
    `getValidationConstraints(err)`: the constraints object when present.
    With `constraints` typed as an optional string map, the guard reduces to
    reading the field.
   */
  function GetValidationConstraints(err: ValidationError): Option<Constraints>
  {
    err.constraints
  }

  /**
    The text one error contributes: its constraint messages joined with ', ',
    or '' without constraints. It is empty exactly when there are no
    constraints, none of them, or a single empty message.
   */
  function ErrorText(err: ValidationError): (t: string)
    ensures err.constraints.None? ==> t == ""
    ensures err.constraints.Some? && |Values(err.constraints.value)| == 1 ==> t == Values(err.constraints.value)[0]
    ensures t == "" <==>
      (err.constraints.None? || Values(err.constraints.value) == [] || Values(err.constraints.value) == [""])
  {
    match GetValidationConstraints(err)
    case Some(c) =>
      JoinIsEmpty(Values(c), ", ");
      Join(Values(c), ", ")
    case None => ""
  }

  /** `errors.map(ErrorText).filter(Boolean)`: the non-empty texts, in input order. */
  function Messages(errors: seq<ValidationError>): (ms: seq<string>)
    ensures |ms| <= |errors|
    ensures forall i :: 0 <= i < |ms| ==> ms[i] != ""
    ensures ms == [] <==> forall i :: 0 <= i < |errors| ==> ErrorText(errors[i]) == ""
  {
    if errors == [] then []
    else
      var init := errors[..|errors| - 1];
      var t := ErrorText(errors[|errors| - 1]);
      assert forall i :: 0 <= i < |init| ==> init[i] == errors[i];
      if t == "" then Messages(init) else Messages(init) + [t]
  }

  /**
    Every message is the non-empty text of some error, and the non-empty
    text of every error is among the messages.
   */
  lemma {:induction false} MessagesFromErrors(errors: seq<ValidationError>)
    ensures forall t :: t in Messages(errors) <==>
      t != "" && exists i :: 0 <= i < |errors| && ErrorText(errors[i]) == t
    decreases |errors|
  {
    if errors != [] {
      var init := errors[..|errors| - 1];
      var last := errors[|errors| - 1];
      MessagesFromErrors(init);
      assert errors == init + [last];
      MessagesSnoc(init, last);
      assert forall i :: 0 <= i < |init| ==> init[i] == errors[i];
      forall t | t != "" && exists i :: 0 <= i < |errors| && ErrorText(errors[i]) == t
        ensures t in Messages(errors)
      {
        var i :| 0 <= i < |errors| && ErrorText(errors[i]) == t;
        if i < |init| {
          assert ErrorText(init[i]) == t;
        }
      }
      forall t | t in Messages(errors)
        ensures t != "" && exists i :: 0 <= i < |errors| && ErrorText(errors[i]) == t
      {
        if t !in Messages(init) {
          assert ErrorText(last) == t;
        } else {
          var i :| 0 <= i < |init| && ErrorText(init[i]) == t;
          assert ErrorText(errors[i]) == t;
        }
      }
    }
  }

  /** One error contributes its text when that is non-empty, and nothing otherwise. */
  lemma MessagesSingle(err: ValidationError)
    ensures Messages([err]) == if ErrorText(err) == "" then [] else [ErrorText(err)]
  {
    assert [err][..0] == [];
  }

  /** Appending an error appends its text, when that is non-empty. */
  lemma MessagesSnoc(errors: seq<ValidationError>, err: ValidationError)
    ensures Messages(errors + [err]) == Messages(errors) + (if ErrorText(err) == "" then [] else [ErrorText(err)])
  {
    assert (errors + [err])[..|errors|] == errors;
  }

  /** The message list of a concatenation is the concatenation of the message lists. */
  lemma {:induction false} MessagesAppend(a: seq<ValidationError>, b: seq<ValidationError>)
    ensures Messages(a + b) == Messages(a) + Messages(b)
    decreases |b|
  {
    if b == [] {
      assert a + b == a;
    } else {
      var b', last := b[..|b| - 1], b[|b| - 1];
      var tail := if ErrorText(last) == "" then [] else [ErrorText(last)];
      assert b == b' + [last];
      assert a + b == (a + b') + [last];
      calc {
        Messages(a + b);
        { MessagesSnoc(a + b', last); }
        Messages(a + b') + tail;
        { MessagesAppend(a, b'); }
        (Messages(a) + Messages(b')) + tail;
        Messages(a) + (Messages(b') + tail);
        { MessagesSnoc(b', last); }
        Messages(a) + Messages(b);
      }
    }
  }


  /**
    The ValidationPipe's `exceptionFactory`: a CustomValidationException
    carrying the original list unchanged, whose message is '' exactly when
    no error contributed any text.
   */
  function ExceptionFactory(errors: seq<ValidationError>): (e: CustomValidationException)
    ensures e.GetStatus() == 400
    ensures e.validationErrors == errors
    ensures e.message == Join(Messages(errors), ", ")
    ensures e.message == "" <==> forall i :: 0 <= i < |errors| ==> ErrorText(errors[i]) == ""
  {
    var ms := Messages(errors);
    JoinIsEmpty(ms, ", ");
    New(Join(ms, ", "), errors)
  }

  /** Only the top-level constraints are read: value, property and children do not matter. */
  lemma {:induction false} FactoryReadsOnlyConstraints(a: seq<ValidationError>, b: seq<ValidationError>)
    requires |a| == |b|
    requires forall i :: 0 <= i < |a| ==> a[i].constraints == b[i].constraints
    ensures ExceptionFactory(a).message == ExceptionFactory(b).message
  {
    assert Messages(a) == Messages(b) by {
      MessagesPointwise(a, b);
    }
  }

  lemma {:induction false} MessagesPointwise(a: seq<ValidationError>, b: seq<ValidationError>)
    requires |a| == |b|
    requires forall i :: 0 <= i < |a| ==> a[i].constraints == b[i].constraints
    ensures Messages(a) == Messages(b)
  {
    if a != [] {
      MessagesPointwise(a[..|a| - 1], b[..|b| - 1]);
    }
  }

  /**
    When no constraint message is itself empty, the factory's message is
    the same text the ValidationExceptionFilter builds for the list: every
    constraint message in order, joined with ', '.
   */
  lemma {:induction false} FactoryAgreesWithFilter(errors: seq<ValidationError>)
    requires forall i, j :: 0 <= i < |errors| && 0 <= j < |ValidatorFilter.ConstraintValues(errors[i].constraints)| ==>
               ValidatorFilter.ConstraintValues(errors[i].constraints)[j] != ""
    ensures ExceptionFactory(errors).message == Join(ValidatorFilter.AllConstraintValues(errors), ", ")
    ensures Messages(errors) == [] <==> ValidatorFilter.AllConstraintValues(errors) == []
  {
    if errors != [] {
      var init := errors[..|errors| - 1];
      var last := errors[|errors| - 1];
      FactoryAgreesWithFilter(init);
      var vs := ValidatorFilter.ConstraintValues(last.constraints);
      var prev := ValidatorFilter.AllConstraintValues(init);
      assert ValidatorFilter.AllConstraintValues(errors) == prev + vs;
      assert ErrorText(last) == Join(vs, ", ");
      JoinIsEmpty(vs, ", ");
      if vs != [] {
        assert vs[0] != "";
        assert ErrorText(last) != "";
        if prev != [] {
          JoinAppend(prev, vs, ", ");
          JoinSnoc(Messages(init), ErrorText(last), ", ");
        } else {
          assert prev + vs == vs;
        }
      } else {
        assert prev + vs == prev;
      }
    }
  }
}
