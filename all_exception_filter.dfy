/**
  AllExceptionFilter: the catch-all filter that maps any thrown value to
  one HTTP response. A CustomValidationException and anything the handler
  cannot classify get the `{statusCode, status:false, data, message}`
  envelope; the Objection and database errors get `{error: {message, code}}`
  with a per-class HTTP status, and in production a fixed text in place of
  the raw error message.
 */
module AllExceptions {
  import opened Js
  import opened Text
  import opened Types
  import V = ValidationExceptions
  import NormalExceptions

  /** The classes a thrown value can be an `instanceof`, as the filter tests them. */
  datatype ErrorClass =
    | Error
    | HttpException
    | CustomValidationException
    | ValidationError            // Objection's model validation error
    | NotNullViolationError
    | UniqueViolationError
    | ConstraintViolationError
    | DBError
    | DataError
    | CheckViolationError
    | ForeignKeyViolationError
    | NotFoundError

  /** The `message` field of an HttpException's response object, when it has one. */
  datatype MessageField =
    | MessageList(items: seq<string>)  // an array of messages
    | MessageScalar(text: string)      // any other value, as `String(value)` renders it

  /** What `getResponse()` of an HttpException returns. */
  datatype HttpResponse =
    | ResponseText(text: string)
    | ResponseObject(message: Option<MessageField>)
    | ResponseOther                    // null, or a value that is neither a string nor an object

  /**
    A thrown value: the set of classes it is an instance of, and the fields
    the filter reads from it. A field the value's classes do not have is
    never read.
   */
  datatype Thrown = Thrown(
    classes: set<ErrorClass>,
    message: string,                        // `exception.message`
    httpStatus: int,                        // `getStatus()` of an HttpException
    httpResponse: HttpResponse,             // `getResponse()` of an HttpException
    validationType: string,                 // `type` of an Objection ValidationError
    validationErrors: seq<V.ValidationError>) // of a CustomValidationException

  /**
    What the filter is handed: `undefined` or `null` (from `throw undefined`
    or `throw null` in code that runs before the interceptors, such as a
    guard), or any other value. `@Catch()` with no classes passes every one
    of them to the filter.
   */
  datatype Raised = Nullish | Value(thrown: Thrown)

  /** The two body shapes: the envelope (sent with `json`) and `{error: {message, code}}` (sent with `send`). */
  datatype Body =
    | Envelope(api: ApiResponse<Option<seq<V.ValidationError>>>)
    | Plain(fail: HttpFailResponse)

  type Reply = Sent<Body>

  /** `process.env.NODE_ENV === 'production'` */
  predicate IsProduction(env: Env)
  {
    "NODE_ENV" in env && env["NODE_ENV"] == "production"
  }

  /** The status the locals start from (lines 35 and 40): an HttpException's own, else 400. */
  function InitialStatus(e: Thrown): (s: int)
    ensures HttpException in e.classes ==> s == e.httpStatus
    ensures HttpException !in e.classes ==> s == BAD_REQUEST
  {
    if HttpException in e.classes then e.httpStatus else BAD_REQUEST
  }

  /**
    The message the locals start from (lines 36-51): a string response, a
    response `message` (arrays joined with ', '), a plain Error's message,
    else 'An error occurred'.
   */
  function InitialMessage(e: Thrown): (m: string)
    ensures HttpException in e.classes && e.httpResponse.ResponseText? ==> m == e.httpResponse.text
    ensures (HttpException in e.classes && e.httpResponse.ResponseObject? && e.httpResponse.message.Some?
             && e.httpResponse.message.value.MessageList?)
            ==> m == Join(e.httpResponse.message.value.items, ", ")
    ensures (HttpException in e.classes && e.httpResponse.ResponseObject? && e.httpResponse.message.Some?
             && e.httpResponse.message.value.MessageScalar?)
            ==> m == e.httpResponse.message.value.text
    ensures (HttpException in e.classes && (e.httpResponse == ResponseObject(None) || e.httpResponse == ResponseOther))
            ==> m == "An error occurred"
    ensures HttpException !in e.classes && Error in e.classes ==> m == e.message
    ensures HttpException !in e.classes && Error !in e.classes ==> m == "An error occurred"
  {
    if HttpException in e.classes then
      match e.httpResponse
      case ResponseText(t) => t
      case ResponseObject(Some(MessageList(items))) => Join(items, ", ")
      case ResponseObject(Some(MessageScalar(t))) => t
      case _ => "An error occurred"
    else if Error in e.classes then e.message
    else "An error occurred"
  }

  /** The production text or the raw message. */
  function Masked(production: bool, generic: string, raw: string): string
  {
    if production then generic else raw
  }

  /** The production text of an Objection ValidationError, by its `type`. */
  function ValidationTypeText(validationType: string): (t: string)
    ensures t in {"Model validation error", "Relation expression error", "Unallowed relation error",
                  "Invalid graph error", "Unknown validation error"}
  {
    if validationType == "ModelValidation" then "Model validation error"
    else if validationType == "RelationExpression" then "Relation expression error"
    else if validationType == "UnallowedRelation" then "Unallowed relation error"
    else if validationType == "InvalidGraph" then "Invalid graph error"
    else "Unknown validation error"
  }

  /** `response.status(status).send(exception.toJSON())` */
  function SendJson(status: int, e: NormalExceptions.NormalException): Reply
  {
    Sent(status, Plain(e.ToJson()))
  }

  /**
    The body of `AllExceptionFilter.catch` after its first line, for a value
    that is not null or undefined: the ordered `instanceof` chain, first
    match wins. Only a CustomValidationException carries data; every
    `{error}` body has code 400 whatever the status.
   */
  function Catch(env: Env, e: Thrown): (r: Reply)
    ensures r.body.Plain? ==> r.body.fail.error.code == BAD_REQUEST && r.body.fail.error.message != ""
    ensures r.body.Envelope? ==> r.body.api.statusCode == r.status && !r.body.api.status
    ensures r.body.Envelope? && r.body.api.data.Some? <==> CustomValidationException in e.classes
  {
    var production := IsProduction(env);
    if CustomValidationException in e.classes then
      Sent(e.httpStatus, Envelope(ApiResponse(e.httpStatus, false, Some(e.validationErrors), e.message)))
    else if ValidationError in e.classes then
      var msg := Masked(production, ValidationTypeText(e.validationType), e.message);
      SendJson(BAD_REQUEST, NormalExceptions.ValidationError(Some(msg)))
    else if NotNullViolationError in e.classes then
      var msg := Masked(production, "Not null violation error", e.message);
      SendJson(BAD_REQUEST, NormalExceptions.Unexpected(Some(msg)))
    else if UniqueViolationError in e.classes then
      var msg := Masked(production, "Unique violation error", e.message);
      SendJson(CONFLICT, NormalExceptions.Unexpected(Some(msg)))
    else if ConstraintViolationError in e.classes then
      var msg := Masked(production, "Constraint violation error", e.message);
      SendJson(BAD_REQUEST, NormalExceptions.ValidationError(Some(msg)))
    else if DBError in e.classes then
      var msg := Masked(production, "Some errors occurred with database", e.message);
      SendJson(INTERNAL_SERVER_ERROR, NormalExceptions.Unexpected(Some(msg)))
    else if DataError in e.classes then
      var msg := Masked(production, "Bad data provided", e.message);
      SendJson(BAD_REQUEST, NormalExceptions.Unexpected(Some(msg)))
    else if CheckViolationError in e.classes then
      var msg := Masked(production, "Check violation error", e.message);
      SendJson(BAD_REQUEST, NormalExceptions.Unexpected(Some(msg)))
    else if ForeignKeyViolationError in e.classes then
      var msg := Masked(production, "Foreign key violation error", e.message);
      SendJson(BAD_REQUEST, NormalExceptions.Unexpected(Some(msg)))
    else if NotFoundError in e.classes then
      var msg := Masked(production, "Not found error", e.message);
      SendJson(NOT_FOUND, NormalExceptions.Unexpected(Some(msg)))
    else
      var status := InitialStatus(e);
      Sent(status, Envelope(ApiResponse(status, false, None, InitialMessage(e))))
  }

  /**
    `AllExceptionFilter.catch` as written. Its first line reads
    `exception.stack`, which throws a TypeError for null and undefined
    before any response is written (`None`); every other value gets exactly
    the reply of the chain.
   */
  function Filter(env: Env, x: Raised): (r: Option<Reply>)
    ensures r.None? <==> x.Nullish?
    ensures x.Value? ==> r == Some(Catch(env, x.thrown))
  {
    match x
    case Nullish => None
    case Value(e) => Some(Catch(env, e))
  }

  // ---------------------------------------------------------------------
  // The dispatch table, stated independently of the chain above.
  // ---------------------------------------------------------------------

  /** The classes the filter dispatches on, in the order it tests them. */
  const Precedence: seq<ErrorClass> := [
    CustomValidationException, ValidationError, NotNullViolationError, UniqueViolationError,
    ConstraintViolationError, DBError, DataError, CheckViolationError, ForeignKeyViolationError,
    NotFoundError]

  /** The first class of `order` that the value is an instance of. */
  function FirstMatch(classes: set<ErrorClass>, order: seq<ErrorClass>): Option<ErrorClass>
  {
    if order == [] then None
    else if order[0] in classes then Some(order[0])
    else FirstMatch(classes, order[1..])
  }

  /** A first match is one of the value's classes. */
  lemma {:induction false} FirstMatchSound(classes: set<ErrorClass>, order: seq<ErrorClass>)
    ensures FirstMatch(classes, order).Some? ==> FirstMatch(classes, order).value in classes
  {
    if order != [] && order[0] !in classes {
      FirstMatchSound(classes, order[1..]);
    }
  }

  /** There is no first match exactly when the value has none of the classes of `order`. */
  lemma {:induction false} FirstMatchNone(classes: set<ErrorClass>, order: seq<ErrorClass>)
    ensures FirstMatch(classes, order).None? <==> forall c :: c in order ==> c !in classes
  {
    if order != [] {
      FirstMatchNone(classes, order[1..]);
      assert forall c :: c in order ==> c == order[0] || c in order[1..];
    }
  }

  /** The first match is the class at `k` when it is the earliest class of `order` the value has. */
  lemma {:induction false} FirstMatchIs(classes: set<ErrorClass>, order: seq<ErrorClass>, k: nat)
    requires k < |order| && order[k] in classes
    requires forall j :: 0 <= j < k ==> order[j] !in classes
    ensures FirstMatch(classes, order) == Some(order[k])
  {
    if k > 0 {
      assert order[0] !in classes;
      FirstMatchIs(classes, order[1..], k - 1);
    }
  }

  /** The HTTP status of each dispatched class. */
  function TableStatus(c: ErrorClass, e: Thrown): int
  {
    match c
    case CustomValidationException => e.httpStatus
    case UniqueViolationError => CONFLICT
    case DBError => INTERNAL_SERVER_ERROR
    case NotFoundError => NOT_FOUND
    case _ => BAD_REQUEST
  }

  /** Every text a production `{error}` body can carry. */
  const ProductionTexts: set<string> :=
    {"Model validation error", "Relation expression error", "Unallowed relation error",
     "Invalid graph error", "Unknown validation error", "Not null violation error",
     "Unique violation error", "Constraint violation error", "Some errors occurred with database",
     "Bad data provided", "Check violation error", "Foreign key violation error", "Not found error"}

  /**
    The fixed production text of each dispatched class. Error, HttpException
    and CustomValidationException have none of their own, since the table
    never sends an `{error}` body for them; they get the filter's generic
    'An error occurred'.
   */
  function GenericText(c: ErrorClass, validationType: string): (t: string)
    ensures c !in {Error, HttpException, CustomValidationException} ==> t in ProductionTexts
    ensures c in {Error, HttpException, CustomValidationException} ==> t == "An error occurred"
  {
    match c
    case ValidationError => ValidationTypeText(validationType)
    case NotNullViolationError => "Not null violation error"
    case UniqueViolationError => "Unique violation error"
    case ConstraintViolationError => "Constraint violation error"
    case DBError => "Some errors occurred with database"
    case DataError => "Bad data provided"
    case CheckViolationError => "Check violation error"
    case ForeignKeyViolationError => "Foreign key violation error"
    case NotFoundError => "Not found error"
    case Error | HttpException | CustomValidationException => "An error occurred"
  }

  /** The text of the `{error}` body: generic in production, raw otherwise, never ''. */
  function TableMessage(c: ErrorClass, e: Thrown, production: bool): (m: string)
    ensures production ==> m == GenericText(c, e.validationType)
    ensures !production && e.message != "" ==> m == e.message
    ensures m != ""
  {
    var text := if production then GenericText(c, e.validationType) else e.message;
    if text != "" then text
    else if c == ValidationError || c == ConstraintViolationError then "Validation Error"
    else "Unexpected Error"
  }

  /**
    The table's `{error}` reply is what the filter builds with `SendJson`:
    a VALIDATION_ERROR for ValidationError and ConstraintViolationError, an
    UNEXPECTED otherwise, over the masked message.
   */
  lemma {:induction false} TableMessageIsSent(c: ErrorClass, e: Thrown, production: bool)
    ensures var msg := Some(Masked(production, GenericText(c, e.validationType), e.message));
      var n := if c == ValidationError || c == ConstraintViolationError
               then NormalExceptions.ValidationError(msg) else NormalExceptions.Unexpected(msg);
      SendJson(TableStatus(c, e), n) ==
        Sent(TableStatus(c, e), Plain(HttpFailResponse(FailResponse(TableMessage(c, e, production), BAD_REQUEST))))
  {
  }

  /** The reply the dispatch table prescribes when classes are tested in `order`. */
  function Dispatch(env: Env, e: Thrown, order: seq<ErrorClass>): Reply
  {
    match FirstMatch(e.classes, order)
    case None =>
      Sent(InitialStatus(e), Envelope(ApiResponse(InitialStatus(e), false, None, InitialMessage(e))))
    case Some(c) =>
      if c == CustomValidationException then
        Sent(e.httpStatus, Envelope(ApiResponse(e.httpStatus, false, Some(e.validationErrors), e.message)))
      else
        Sent(TableStatus(c, e), Plain(HttpFailResponse(FailResponse(TableMessage(c, e, IsProduction(env)), BAD_REQUEST))))
  }

  /** The first class of `Precedence` a value has, spelled out as the chain of tests it stands for. */
  lemma PrecedenceFirstMatch(cs: set<ErrorClass>)
    ensures FirstMatch(cs, Precedence) ==
      if CustomValidationException in cs then Some(CustomValidationException)
      else if ValidationError in cs then Some(ValidationError)
      else if NotNullViolationError in cs then Some(NotNullViolationError)
      else if UniqueViolationError in cs then Some(UniqueViolationError)
      else if ConstraintViolationError in cs then Some(ConstraintViolationError)
      else if DBError in cs then Some(DBError)
      else if DataError in cs then Some(DataError)
      else if CheckViolationError in cs then Some(CheckViolationError)
      else if ForeignKeyViolationError in cs then Some(ForeignKeyViolationError)
      else if NotFoundError in cs then Some(NotFoundError)
      else None
  {
    var p := Precedence;
    if CustomValidationException in cs { FirstMatchIs(cs, p, 0); }
    else if ValidationError in cs { FirstMatchIs(cs, p, 1); }
    else if NotNullViolationError in cs { FirstMatchIs(cs, p, 2); }
    else if UniqueViolationError in cs { FirstMatchIs(cs, p, 3); }
    else if ConstraintViolationError in cs { FirstMatchIs(cs, p, 4); }
    else if DBError in cs { FirstMatchIs(cs, p, 5); }
    else if DataError in cs { FirstMatchIs(cs, p, 6); }
    else if CheckViolationError in cs { FirstMatchIs(cs, p, 7); }
    else if ForeignKeyViolationError in cs { FirstMatchIs(cs, p, 8); }
    else if NotFoundError in cs { FirstMatchIs(cs, p, 9); }
    else { FirstMatchNone(cs, p); }
  }

  /** The filter follows the dispatch table, testing classes in `Precedence` order. */
  lemma CatchFollowsPrecedence(env: Env, e: Thrown)
    ensures Catch(env, e) == Dispatch(env, e, Precedence)
  {
    PrecedenceFirstMatch(e.classes);
    var m := FirstMatch(e.classes, Precedence);
    if m.Some? && m.value != CustomValidationException {
      TableMessageIsSent(m.value, e, IsProduction(env));
    }
  }

  /** Every reply of an Objection or database branch: the status of the table and `{error: {message, 400}}`. */
  lemma DatabaseBranches(env: Env, e: Thrown, c: ErrorClass)
    requires FirstMatch(e.classes, Precedence) == Some(c) && c != CustomValidationException
    ensures Catch(env, e).status == TableStatus(c, e)
    ensures c == UniqueViolationError ==> Catch(env, e).status == CONFLICT
    ensures c == DBError ==> Catch(env, e).status == INTERNAL_SERVER_ERROR
    ensures c == NotFoundError ==> Catch(env, e).status == NOT_FOUND
    ensures c !in {UniqueViolationError, DBError, NotFoundError} ==> Catch(env, e).status == BAD_REQUEST
    ensures Catch(env, e).body == Plain(HttpFailResponse(FailResponse(TableMessage(c, e, IsProduction(env)), BAD_REQUEST)))
  {
    CatchFollowsPrecedence(env, e);
  }

  /**
    An Objection ValidationError, of any `type`, is answered with 400; in
    production the text is the fixed one for its type.
   */
  lemma ObjectionValidationReply(env: Env, e: Thrown)
    requires ValidationError in e.classes && CustomValidationException !in e.classes
    ensures Catch(env, e).status == BAD_REQUEST && Catch(env, e).body.Plain?
    ensures IsProduction(env) ==> Catch(env, e).body.fail.error.message == ValidationTypeText(e.validationType)
    ensures !IsProduction(env) && e.message != "" ==> Catch(env, e).body.fail.error.message == e.message
    ensures !IsProduction(env) && e.message == "" ==> Catch(env, e).body.fail.error.message == "Validation Error"
  {
  }

  /**
    In production the `{error}` text of an Objection ValidationError is
    chosen by its `type`: one text for each of the four known types, and
    'Unknown validation error' for any other.
   */
  lemma ObjectionValidationTexts(env: Env, e: Thrown)
    requires IsProduction(env)
    requires ValidationError in e.classes && CustomValidationException !in e.classes
    ensures Catch(env, e).body.Plain?
    ensures var m := Catch(env, e).body.fail.error.message;
      && (e.validationType == "ModelValidation" ==> m == "Model validation error")
      && (e.validationType == "RelationExpression" ==> m == "Relation expression error")
      && (e.validationType == "UnallowedRelation" ==> m == "Unallowed relation error")
      && (e.validationType == "InvalidGraph" ==> m == "Invalid graph error")
      && (e.validationType !in {"ModelValidation", "RelationExpression", "UnallowedRelation", "InvalidGraph"} ==>
            m == "Unknown validation error")
  {
    ObjectionValidationReply(env, e);
  }

  /** In production an Objection or database error's raw message never reaches the body. */
  lemma ProductionHidesRawMessage(env: Env, e: Thrown, other: string)
    requires IsProduction(env)
    requires FirstMatch(e.classes, Precedence).Some? && FirstMatch(e.classes, Precedence) != Some(CustomValidationException)
    ensures Catch(env, e) == Catch(env, e.(message := other))
    ensures Catch(env, e).body.Plain? && Catch(env, e).body.fail.error.message in ProductionTexts
  {
    CatchFollowsPrecedence(env, e);
    CatchFollowsPrecedence(env, e.(message := other));
    var c := FirstMatch(e.classes, Precedence).value;
    assert TableMessage(c, e, true) == TableMessage(c, e.(message := other), true);
  }

  /** Outside production an Objection or database error's own message is sent, when it has one. */
  lemma DevelopmentShowsRawMessage(env: Env, e: Thrown)
    requires !IsProduction(env) && e.message != ""
    requires FirstMatch(e.classes, Precedence).Some? && FirstMatch(e.classes, Precedence) != Some(CustomValidationException)
    ensures Catch(env, e).body.Plain? && Catch(env, e).body.fail.error.message == e.message
  {
    CatchFollowsPrecedence(env, e);
  }

  /**
    First match: a ConstraintViolationError that is none of the earlier
    classes is answered at its own branch, whatever later classes it also has.
   */
  lemma ConstraintViolationShadowsLater(env: Env, e: Thrown)
    requires ConstraintViolationError in e.classes
    requires e.classes !! {CustomValidationException, ValidationError, NotNullViolationError, UniqueViolationError}
    ensures Catch(env, e) == Catch(env, e.(classes := e.classes - {DBError, DataError, CheckViolationError, ForeignKeyViolationError, NotFoundError}))
    ensures Catch(env, e) == Sent(BAD_REQUEST, Plain(HttpFailResponse(FailResponse(
              TableMessage(ConstraintViolationError, e, IsProduction(env)), BAD_REQUEST))))
  {
  }

  /**
    Anything that matches no branch gets the envelope with `data: null`,
    the HttpException's own status or 400, and the extracted message.
   */
  lemma FallbackEnvelope(env: Env, e: Thrown)
    requires forall c :: c in Precedence ==> c !in e.classes
    ensures Catch(env, e) == Sent(InitialStatus(e), Envelope(ApiResponse(InitialStatus(e), false, None, InitialMessage(e))))
  {
    CatchFollowsPrecedence(env, e);
    FirstMatchNone(e.classes, Precedence);
  }

  /** A CustomValidationException as the filter sees it: an HttpException and an Error. */
  function FromCustomValidation(x: V.CustomValidationException): (e: Thrown)
    ensures e.classes == {CustomValidationException, HttpException, Error}
  {
    Thrown({CustomValidationException, HttpException, Error}, x.message, x.GetStatus(),
           ResponseObject(Some(MessageScalar(x.GetResponse().message))), "", x.validationErrors)
  }

  /** A NormalException as the filter sees it. */
  function FromNormal(n: NormalExceptions.NormalException): (e: Thrown)
    ensures e.classes == {HttpException, Error}
  {
    Thrown({HttpException, Error}, n.Message(), n.GetStatus(),
           ResponseObject(Some(MessageScalar(n.GetResponse().message))), "", [])
  }

  /** A CustomValidationException gets status 400 and its own message and list, unchanged. */
  lemma CustomValidationReply(env: Env, x: V.CustomValidationException)
    ensures Catch(env, FromCustomValidation(x)) ==
      Sent(BAD_REQUEST, Envelope(ApiResponse(BAD_REQUEST, false, Some(x.validationErrors), x.message)))
  {
  }

  /** A NormalException reaching this filter gets the envelope its own `toApiResponse` describes. */
  lemma NormalExceptionReply(env: Env, n: NormalExceptions.NormalException)
    ensures var r := Catch(env, FromNormal(n));
      && r.status == n.ToApiResponse().statusCode
      && r.body == Envelope(ApiResponse(n.ToApiResponse().statusCode, false, None, n.ToApiResponse().message))
  {
    FallbackEnvelope(env, FromNormal(n));
  }

  // ---------------------------------------------------------------------
  // The class hierarchy, and the branches it makes unreachable.
  // ---------------------------------------------------------------------

  /**
    The classes an instance of `c` belongs to, by the libraries' subclass
    relations: CustomValidationException < HttpException < Error; the
    Objection ValidationError and NotFoundError < Error; NotNull, Unique,
    Check and ForeignKey violations < ConstraintViolationError < DBError <
    Error; DataError < DBError.
   */
  function InstanceOf(c: ErrorClass): (cs: set<ErrorClass>)
    ensures c in cs && Error in cs
  {
    match c
    case Error => {Error}
    case HttpException => {HttpException, Error}
    case CustomValidationException => {CustomValidationException, HttpException, Error}
    case ValidationError => {ValidationError, Error}
    case NotFoundError => {NotFoundError, Error}
    case DBError => {DBError, Error}
    case DataError => {DataError, DBError, Error}
    case ConstraintViolationError => {ConstraintViolationError, DBError, Error}
    case NotNullViolationError => {NotNullViolationError, ConstraintViolationError, DBError, Error}
    case UniqueViolationError => {UniqueViolationError, ConstraintViolationError, DBError, Error}
    case CheckViolationError => {CheckViolationError, ConstraintViolationError, DBError, Error}
    case ForeignKeyViolationError => {ForeignKeyViolationError, ConstraintViolationError, DBError, Error}
  }

  /**
    As written, an instance of DataError, CheckViolationError or
    ForeignKeyViolationError is answered by an earlier, more general branch:
    a DataError gets 500 and the database text, the two violations the
    generic constraint text.
   */
  lemma ShadowedBranches(env: Env, e: Thrown)
    requires IsProduction(env)
    ensures e.classes == InstanceOf(DataError) ==>
      Catch(env, e) == Sent(INTERNAL_SERVER_ERROR, Plain(HttpFailResponse(FailResponse("Some errors occurred with database", BAD_REQUEST))))
    ensures e.classes == InstanceOf(CheckViolationError) || e.classes == InstanceOf(ForeignKeyViolationError) ==>
      Catch(env, e) == Sent(BAD_REQUEST, Plain(HttpFailResponse(FailResponse("Constraint violation error", BAD_REQUEST))))
  {
    if e.classes == InstanceOf(DataError) {
      assert e.classes == {DataError, DBError, Error};
      ShadowedByDatabase(env, e);
    } else if e.classes == InstanceOf(CheckViolationError) || e.classes == InstanceOf(ForeignKeyViolationError) {
      assert ConstraintViolationError in e.classes && e.classes !! {CustomValidationException, ValidationError, NotNullViolationError, UniqueViolationError};
      ShadowedByConstraint(env, e);
    }
  }

  /** A value that is a DBError and none of the earlier classes gets the database branch. */
  lemma ShadowedByDatabase(env: Env, e: Thrown)
    requires IsProduction(env) && DBError in e.classes
    requires e.classes !! {CustomValidationException, ValidationError, NotNullViolationError, UniqueViolationError, ConstraintViolationError}
    ensures Catch(env, e) == Sent(INTERNAL_SERVER_ERROR, Plain(HttpFailResponse(FailResponse("Some errors occurred with database", BAD_REQUEST))))
  {
  }

  /** A value that is a ConstraintViolationError and none of the earlier classes gets the constraint branch. */
  lemma ShadowedByConstraint(env: Env, e: Thrown)
    requires IsProduction(env) && ConstraintViolationError in e.classes
    requires e.classes !! {CustomValidationException, ValidationError, NotNullViolationError, UniqueViolationError}
    ensures Catch(env, e) == Sent(BAD_REQUEST, Plain(HttpFailResponse(FailResponse("Constraint violation error", BAD_REQUEST))))
  {
  }

  /** The intended order: every subclass is tested before its superclasses. */
  const IntendedPrecedence: seq<ErrorClass> := [
    CustomValidationException, ValidationError, NotNullViolationError, UniqueViolationError,
    CheckViolationError, ForeignKeyViolationError, ConstraintViolationError, DataError, DBError,
    NotFoundError]

  /** The filter with the branches reordered so that each class reaches its own branch. */
  function CatchIntended(env: Env, e: Thrown): (r: Reply)
    ensures r.body.Envelope? && r.body.api.data.Some? <==> CustomValidationException in e.classes
  {
    FirstMatchSound(e.classes, IntendedPrecedence);
    if CustomValidationException in e.classes then
      FirstMatchIs(e.classes, IntendedPrecedence, 0);
      Dispatch(env, e, IntendedPrecedence)
    else
      Dispatch(env, e, IntendedPrecedence)
  }

  /** In the intended order an instance of a dispatched class matches that class first. */
  lemma IntendedFirstMatch(c: ErrorClass)
    requires c in Precedence
    ensures FirstMatch(InstanceOf(c), IntendedPrecedence) == Some(c)
  {
    if c in {CustomValidationException, ValidationError, NotNullViolationError, UniqueViolationError, CheckViolationError} {
      IntendedFirstMatchEarly(c);
    } else {
      IntendedFirstMatchLate(c);
    }
  }

  lemma IntendedFirstMatchEarly(c: ErrorClass)
    requires c in {CustomValidationException, ValidationError, NotNullViolationError, UniqueViolationError, CheckViolationError}
    ensures FirstMatch(InstanceOf(c), IntendedPrecedence) == Some(c)
  {
    var cs, p := InstanceOf(c), IntendedPrecedence;
    match c
    case CustomValidationException => FirstMatchIs(cs, p, 0);
    case ValidationError => FirstMatchIs(cs, p, 1);
    case NotNullViolationError => FirstMatchIs(cs, p, 2);
    case UniqueViolationError => FirstMatchIs(cs, p, 3);
    case CheckViolationError => FirstMatchIs(cs, p, 4);
  }

  lemma IntendedFirstMatchLate(c: ErrorClass)
    requires c in {ForeignKeyViolationError, ConstraintViolationError, DataError, DBError, NotFoundError}
    ensures FirstMatch(InstanceOf(c), IntendedPrecedence) == Some(c)
  {
    var cs, p := InstanceOf(c), IntendedPrecedence;
    match c
    case ForeignKeyViolationError => FirstMatchIs(cs, p, 5);
    case ConstraintViolationError => FirstMatchIs(cs, p, 6);
    case DataError => FirstMatchIs(cs, p, 7);
    case DBError => FirstMatchIs(cs, p, 8);
    case NotFoundError => FirstMatchIs(cs, p, 9);
  }

  /** Corrected: an instance of any dispatched class gets that class's own status and text. */
  lemma IntendedReachesEveryBranch(env: Env, e: Thrown, c: ErrorClass)
    requires c in Precedence && c != CustomValidationException && e.classes == InstanceOf(c)
    ensures CatchIntended(env, e) == Sent(TableStatus(c, e), Plain(HttpFailResponse(FailResponse(TableMessage(c, e, IsProduction(env)), BAD_REQUEST))))
  {
    IntendedFirstMatch(c);
  }

  /** As written, an instance of an unshadowed dispatched class also matches that class first. */
  lemma AsWrittenFirstMatch(c: ErrorClass)
    requires c in Precedence && c !in {DataError, CheckViolationError, ForeignKeyViolationError}
    ensures FirstMatch(InstanceOf(c), Precedence) == Some(c)
  {
    var cs, p := InstanceOf(c), Precedence;
    match c
    case CustomValidationException => FirstMatchIs(cs, p, 0);
    case ValidationError => FirstMatchIs(cs, p, 1);
    case NotNullViolationError => FirstMatchIs(cs, p, 2);
    case UniqueViolationError => FirstMatchIs(cs, p, 3);
    case ConstraintViolationError => FirstMatchIs(cs, p, 4);
    case DBError => FirstMatchIs(cs, p, 5);
    case NotFoundError => FirstMatchIs(cs, p, 9);
  }

  /** Corrected and as-written agree on every instance except those of the three shadowed classes. */
  lemma IntendedAgreesElsewhere(env: Env, e: Thrown, c: ErrorClass)
    requires e.classes == InstanceOf(c)
    requires c !in {DataError, CheckViolationError, ForeignKeyViolationError}
    ensures CatchIntended(env, e) == Catch(env, e)
  {
    CatchFollowsPrecedence(env, e);
    if c in Precedence {
      IntendedFirstMatch(c);
      AsWrittenFirstMatch(c);
    } else {
      FirstMatchNone(e.classes, IntendedPrecedence);
      FirstMatchNone(e.classes, Precedence);
    }
  }

  // ---------------------------------------------------------------------
  // Null and undefined: no reply as written, the fallback envelope intended.
  // ---------------------------------------------------------------------

  /** A value that is an instance of no class and carries no fields the filter reads. */
  const Classless := Thrown({}, "", 0, ResponseOther, "", [])

  /**
    The filter with its first line reading `exception?.stack`: null and
    undefined then pass the chain like any value of no class, so every
    value gets exactly one reply.
   */
  function FilterGuarded(env: Env, x: Raised): (r: Reply)
    ensures x.Nullish? ==> r == Sent(BAD_REQUEST, Envelope(ApiResponse(BAD_REQUEST, false, None, "An error occurred")))
    ensures x.Value? ==> Filter(env, x) == Some(r)
  {
    match x
    case Nullish => Catch(env, Classless)
    case Value(e) => Catch(env, e)
  }

  /**
    Corrected: null and undefined get the envelope the chain gives any value
    of no class, status 400 and 'An error occurred', in every environment;
    as written they get no reply at all.
   */
  lemma NullishGetsFallback(env: Env)
    ensures FilterGuarded(env, Nullish) == Sent(InitialStatus(Classless), Envelope(ApiResponse(
              InitialStatus(Classless), false, None, InitialMessage(Classless))))
    ensures Filter(env, Nullish).None?
  {
    FallbackEnvelope(env, Classless);
  }
}
