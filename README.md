# NestJS + Objection REST boilerplate: the response and configuration logic, in Dafny

This project models the decision logic of a NestJS REST API that stores data through
Objection/Knex on PostgreSQL:

- **the exception filters**: the catch-all `AllExceptionFilter`, the `NormalExceptionFilter` and the
  `ValidationExceptionFilter`. They turn a thrown value into one HTTP status and one body. The body is
  either the envelope `{statusCode, status: false, data, message}` or the Objection-style
  `{error: {message, code}}`;
- **the two exception classes** `NormalException` and `CustomValidationException`;
- **the `exceptionFactory` of the global `ValidationPipe`**, which folds class-validator errors into one
  message;
- **the interceptors**: the `ResponseInterceptor`, which builds the success envelope, and the
  `LoggingInterceptor`, which resolves the client IP and builds the log records;
- **the configuration**: the configuration factory, `createKnexConfig` and the knexfile, each a function of
  the environment map;
- **the `BaseModel` timestamp hooks**.

The pure parts are functions over datatypes: JavaScript values (`Js`), strings (`Text`) and `parseInt`
(`Numbers`). The parts the source changes step by step are imperative Dafny:

- the array branch of the validation filter, which pushes into a list, is a method with a loop;
- `BaseModel` is a class whose hooks assign its fields.

A filter is a function from its inputs to the one `Sent(status, body)` it writes. Each branch of the
source returns right after its single write, and that is what the function models. The catch-all filter
is the exception: its first line reads `exception.stack`. For a `null` or `undefined` that reaches it
unchanged, as one thrown by a guard would, that read raises a TypeError, and nothing is written. `AllExceptions.Filter` models this as `None`.

A thrown value is modelled as the set of classes it is an `instanceof`, together with the fields the
filter reads. `AllExceptions.Catch` is the literal first-match chain. It is related by lemma to an
independent table: a precedence list, a first-match function, and a status and text per class.

## Model

| member | source | states |
|---|---|---|
| NormalExceptions.New | src/exception/normal.exception.ts:5-7 | The HTTP status is always 400, and the given message and code are stored only in the body that `getResponse` returns. |
| NormalExceptions.NormalException.GetStatus | src/exception/normal.exception.ts:5-7 | Always 400, the status handed to `super`, whatever the code. |
| NormalExceptions.NormalException.GetResponse | src/exception/normal.exception.ts:51-53 | The object handed to the constructor, unchanged: rebuilding the exception from it gives back the same exception. |
| NormalExceptions.NormalException.Message | src/exception/normal.exception.ts:5-7 | The `message` HttpException derives from the object response: the response's `message`. |
| NormalExceptions.HttpRequestTimeout | src/exception/normal.exception.ts:9-14 | `toJSON` is `{error: {'HTTP Request Timeout', 408}}`, but the HTTP status is 400; the two differ. |
| NormalExceptions.ValidationError | src/exception/normal.exception.ts:16-21 | Code 400. The message is `msg` when it is non-empty, else 'Validation Error', so it is never empty. |
| NormalExceptions.Unexpected | src/exception/normal.exception.ts:23-28 | Code 400. The message is `msg` when it is non-empty, else 'Unexpected Error', so it is never empty. |
| NormalExceptions.NormalException.ToJson | src/exception/normal.exception.ts:30-38 | `{error: {message, code}}`, copied from the stored body. |
| NormalExceptions.NormalException.ToApiResponse | src/exception/normal.exception.ts:40-48 | `statusCode` 400, `status` false, `data` null, and the stored message. |
| ValidationExceptions.New | src/exception/validation.exception.ts:4-10 | Status 400. The list is stored exactly as passed, and the same list and message appear in the response body. |
| ValidationExceptions.Values | src/filters/validator-exception.filter.ts:29-31 | `Object.values` of a constraints object: one message per entry, in entry order. |
| ValidatorFilter.ConstraintValues | src/filters/validator-exception.filter.ts:29-31 | Absent constraints give no messages; present ones give one message per entry. |
| ValidatorFilter.Catch | src/filters/validator-exception.filter.ts:16-59 | Always 422, `statusCode` 422 and `status` false. For a list: one `{property, constraints, children}` per error, in order, and every top-level constraint message joined with ', ', with no default (so '' is possible). For one error: its messages joined, or 'Validation Error'. |
| ValidatorFilter.AllConstraintValuesFrom | src/filters/validator-exception.filter.ts:27-33 | A message is in the list's message text exactly when it is one of some error's own constraint messages. |
| ValidatorFilter.MessagesDependOnlyOnConstraints | src/filters/validator-exception.filter.ts:29-33 | Lists whose errors have the same top-level constraints, pointwise, give the same messages; children and values are never read. |
| ValidatorFilter.NoConstraintsNoMessages | src/filters/validator-exception.filter.ts:29-32 | Errors without constraint messages contribute nothing. |
| AppModule.Messages | src/app.module.ts:79-87 | The per-error texts that survive `filter(Boolean)`, all non-empty, at most one per error. The list is empty exactly when every error's text is ''. |
| AppModule.MessagesFromErrors | src/app.module.ts:79-87 | A text is a message exactly when it is non-empty and some error's text. |
| AppModule.MessagesSingle | src/app.module.ts:79-87 | One error gives its text when that is non-empty, and no message otherwise. |
| AppModule.MessagesSnoc | src/app.module.ts:79-87 | Appending an error appends its text when that is non-empty, and leaves the messages unchanged otherwise. |
| AppModule.ErrorText | src/app.module.ts:80-85 | '' without constraints. A single constraint message is taken as it is. The text is '' exactly when there are no constraints, none in the object, or a single empty message. |
| AppModule.MessagesAppend | src/app.module.ts:79-87 | The fold is order-preserving: the messages of a concatenation are the concatenation of the messages. |
| AppModule.ExceptionFactory | src/app.module.ts:78-89 | A 400 CustomValidationException carrying the original list unchanged. Its message is the surviving texts joined with ', ', and it is '' exactly when no error has constraint text. |
| AppModule.FactoryReadsOnlyConstraints | src/app.module.ts:80-84 | Only top-level constraints are read: errors that agree on them give the same message. |
| AppModule.FactoryAgreesWithFilter | src/app.module.ts:78-89 | When no constraint message is itself '', the factory's message equals the message `ValidatorFilter.Catch` builds for the same list. |
| AllExceptions.InitialStatus | src/filters/all-exception.filter.ts:35-40 | An HttpException supplies its own status; anything else starts at 400. |
| AllExceptions.InitialMessage | src/filters/all-exception.filter.ts:36-51 | A string response is the message. A response `message` array is joined with ', ' and any other value is rendered. A plain Error gives its message. Anything else gives 'An error occurred'. |
| AllExceptions.ValidationTypeText | src/filters/all-exception.filter.ts:66-106 | The production text for an Objection ValidationError is one of the five fixed texts, chosen by `type`. |
| AllExceptions.Filter | src/filters/all-exception.filter.ts:28-169 | A reply is written exactly when the value is neither null nor undefined. For null and undefined, reading `exception.stack` throws first. Any other value gets the chain's reply. |
| AllExceptions.Catch | src/filters/all-exception.filter.ts:31-169 | For a value that is not null or undefined: every `{error}` body has code 400 and a non-empty message. Every envelope has `statusCode` equal to the status sent and `status` false. `data` is present exactly for a CustomValidationException. |
| AllExceptions.CatchFollowsPrecedence | src/filters/all-exception.filter.ts:53-167 | The chain equals the table dispatch in `Precedence` order: the first listed class the value has decides, and none gives the fallback envelope. |
| AllExceptions.PrecedenceFirstMatch | src/filters/all-exception.filter.ts:53-160 | The first class of `Precedence` a value has is the class of the earliest `instanceof` test it passes, in the source's order; a value that passes none has no match. |
| AllExceptions.GenericText | src/filters/all-exception.filter.ts:65-160 | The production text of each dispatched class is one of the thirteen fixed texts the branches name. The three classes the table never sends an `{error}` body for get 'An error occurred'. |
| AllExceptions.TableMessage | src/filters/all-exception.filter.ts:65-160 | The `{error}` text is the fixed class text in production, and the raw message outside it when that is non-empty. It is never empty. |
| AllExceptions.TableMessageIsSent | src/filters/all-exception.filter.ts:65-160 | The table's reply is what `send(NormalException.VALIDATION_ERROR(msg).toJSON())` builds for ValidationError and ConstraintViolationError, and `UNEXPECTED(msg)` builds for every other class, with the masked message and the table's status. |
| AllExceptions.DatabaseBranches | src/filters/all-exception.filter.ts:65-160 | Per branch: Unique 409, DBError 500, NotFound 404, every other branch 400. The body is `{error: {message, 400}}` whatever the status. |
| AllExceptions.ObjectionValidationReply | src/filters/all-exception.filter.ts:65-107 | Every Objection ValidationError, of any type, gets 400. In production the text is the one for its type; otherwise it is the raw message, or 'Validation Error' when that is empty. |
| AllExceptions.ObjectionValidationTexts | src/filters/all-exception.filter.ts:65-106 | In production the text depends on the `type`: 'Model validation error' for ModelValidation, 'Relation expression error' for RelationExpression, 'Unallowed relation error' for UnallowedRelation, 'Invalid graph error' for InvalidGraph, and 'Unknown validation error' for any other. |
| AllExceptions.ProductionHidesRawMessage | src/filters/all-exception.filter.ts:34-160 | In production, an Objection or database reply does not depend on the raw message, and its text is one of the fixed texts. |
| AllExceptions.DevelopmentShowsRawMessage | src/filters/all-exception.filter.ts:34-160 | Outside production, a non-empty raw message is sent as it is. |
| AllExceptions.ConstraintViolationShadowsLater | src/filters/all-exception.filter.ts:122-154 | First match: once a ConstraintViolationError passes the earlier tests, the later classes it also has change nothing. |
| AllExceptions.FallbackEnvelope | src/filters/all-exception.filter.ts:35-167 | A value of no dispatched class, other than null and undefined (which `Filter` answers with no reply), gets the envelope with `data` null, the initial status and the initial message. |
| AllExceptions.CustomValidationReply | src/filters/all-exception.filter.ts:53-62 | A CustomValidationException gets 400, `status` false, its own list unchanged as `data`, and its own message. |
| AllExceptions.NormalExceptionReply | src/filters/all-exception.filter.ts:39-167 | A NormalException reaching this filter gets exactly the envelope its own `toApiResponse` describes. |
| AllExceptions.ShadowedBranches | src/filters/all-exception.filter.ts:129-154 | As written, in production a DataError gets 500 and 'Some errors occurred with database'. Check and foreign-key violations get 'Constraint violation error'. |
| AllExceptions.CatchIntended | src/filters/all-exception.filter.ts:53-167 | The reordered filter still carries `data` exactly for a CustomValidationException. |
| AllExceptions.IntendedReachesEveryBranch | src/filters/all-exception.filter.ts:108-160 | With the most specific class tested first, an instance of every dispatched class reaches its own branch, with its own status and text. |
| AllExceptions.IntendedAgreesElsewhere | src/filters/all-exception.filter.ts:53-167 | The reordered filter agrees with the source on an instance of every class except the three shadowed ones. |
| AllExceptions.FilterGuarded | src/filters/all-exception.filter.ts:28-169 | With the first line reading `exception?.stack`, every value gets a reply. Null and undefined get 400 with 'An error occurred' and `data` null. Any other value gets exactly the reply `Filter` writes. |
| AllExceptions.NullishGetsFallback | src/filters/all-exception.filter.ts:28-51 | Corrected: null and undefined get the envelope the chain gives a value of no class, in every environment. As written they get no reply. |
| NormalExceptionFilter.Catch | src/filters/normal-exception.filter.ts:9-21 | The status is the response's own, or 400 when it is unset or 0. `statusCode` equals that status, `status` is false and `data` null, and the message is the exception's or 'An error occurred'. |
| NormalExceptionFilter.StatusIgnoresException | src/filters/normal-exception.filter.ts:14 | The status sent never depends on the exception. |
| NormalExceptionFilter.AgreesWithToApiResponse | src/filters/normal-exception.filter.ts:14-20 | On a response that has no status yet, or has 400, and for an exception whose message is not empty, the body is the exception's own `toApiResponse()`. |
| NormalExceptionFilter.TimeoutStatusFromResponse | src/filters/normal-exception.filter.ts:14-20 | For every status the response may hold, HTTP_REQUEST_TIMEOUT is sent with that status, or 400 when it is unset or 0. 408 is sent exactly when the response already held 408. The message is always 'HTTP Request Timeout'. |
| NormalExceptionFilter.SentAsSuccessStatus | src/filters/normal-exception.filter.ts:14-20 | As written, on a response holding 200 or 201, which is where an Express response starts, every NormalException is sent with that success status and not with its own 400, while the body says `status: false`. |
| NormalExceptionFilter.CatchIntended | src/filters/normal-exception.filter.ts:9-21 | Corrected: the status comes from `exception.getStatus()`, always 400. The body is the exception's own `toApiResponse()` whenever its message is not empty. |
| NormalExceptionFilter.IntendedAgreesOnUnsetStatus | src/filters/normal-exception.filter.ts:14 | Corrected and as written give the same reply exactly when the response held no status, 0 or 400. |
| ResponseInterceptor.Intercept | src/interceptor/response.interceptor.ts:20-44 | `status` true; the status code is the response's own, or 200. A non-wrapper is the data, with 'Request successful'. A wrapper's defined `data` is used, and otherwise the whole object is the data. The message is the wrapper's when truthy. null and undefined become null, other falsy values stay, and the data is never undefined. |
| ResponseInterceptor.InterceptIdempotent | src/interceptor/response.interceptor.ts:20-44 | Returning an envelope the interceptor made gives back the same envelope, not a nested one. |
| ResponseInterceptor.FalsyDataKept | src/interceptor/response.interceptor.ts:42 | 0, false and '' are kept as data. |
| LoggingInterceptor.ClientIp | src/interceptor/logging.interceptor.ts:27-32 | The first X-Forwarded-For entry, trimmed, when non-empty. Otherwise X-Real-IP, then `request.ip`, then the remote address, each when non-empty. Otherwise 'unknown'. Never ''. |
| LoggingInterceptor.ForwardedFor | src/interceptor/logging.interceptor.ts:28 | Defined exactly when the X-Forwarded-For header is present. The value holds no ','. For a single address, a header with no ',', it is the whole header trimmed. |
| LoggingInterceptor.ForwardedFirstEntry | src/interceptor/logging.interceptor.ts:28 | For any X-Forwarded-For header, the value is the header's text before its first ',', or all of it when there is none, trimmed. |
| LoggingInterceptor.ForwardedChain | src/interceptor/logging.interceptor.ts:28 | For a header `first,rest`, the IP is `first` trimmed, whatever follows and whatever X-Real-IP says. |
| LoggingInterceptor.DirectClient | src/interceptor/logging.interceptor.ts:27-32 | With no proxy headers, the Express IP is used. |
| LoggingInterceptor.UserAgent | src/interceptor/logging.interceptor.ts:23 | The header, or '' when it is absent. |
| LoggingInterceptor.Duration | src/interceptor/logging.interceptor.ts:59-96 | The rendered duration ends in 'ms'. |
| LoggingInterceptor.DurationReadsBack | src/interceptor/logging.interceptor.ts:24-68 | `parseInt` of the rendered duration is end time minus start time. |
| LoggingInterceptor.StartRecord | src/interceptor/logging.interceptor.ts:35-42 | Status 'started' and the request's method, url, ip and user agent. |
| LoggingInterceptor.EndRecord | src/interceptor/logging.interceptor.ts:57-101 | 'completed' with the response's status code, or 'error' with the response's status code, or 500 when it is unset or 0. An Express response starts at 200, so on a live request the 500 default does not fire and the error record carries 200 or 201, the error's message and its stack. The duration is the `Duration` text, which reads back as end time minus start time (`DurationReadsBack`). There is no record exactly when the error is null or undefined, since reading `error.message` throws first. |
| LoggingInterceptor.FileEntries | src/interceptor/logging.interceptor.ts:47-114 | No winston entries without a winston logger. Otherwise 'Incoming Request' at info, then the end record as 'Request Completed' at info or 'Request Failed' at error, all with context 'HTTP'. A null or undefined error leaves only 'Incoming Request'. |
| LoggingInterceptor.RecordsShareRequest | src/interceptor/logging.interceptor.ts:35-95 | All records of a request carry the same method, url, ip and user agent: those resolved from the request. |
| LoggingInterceptor.ConsoleLines | src/interceptor/logging.interceptor.ts:44-106 | The arrival line '→ method url - ip - user agent' at 'log'. Then, on success, '← method url status - duration - ip' at 'log', with an unset status printed 'undefined'. On failure, '✗ method url status - duration - ip - message' at 'error', with status 500 when unset or 0 and 'undefined' for a missing message. A null or undefined error leaves only the arrival line. |
| Configuration.CorsOrigin | src/config/configuration.ts:26-28 | CORS_ORIGIN split on ',' with no trimming, or `['http://localhost:3000']` when it is unset or empty; never an empty list. |
| Configuration.Load | src/config/configuration.ts:1-39 | Every defaulted setting except the database password, whose default is '', is non-empty; so is a PORT taken as text. The database URL and the JWT secret have no default and are passed through as they are. There is always a CORS origin. The two helmet switches are equal, and on only when the node environment is 'production'. |
| Configuration.BlankEnvironmentDefaults | src/config/configuration.ts:2-38 | With every variable unset or empty: port 3000, 'development', '1d', 'api', 'v1', the default CORS origin with credentials on, helmet off, 'logs' and 'info'. The JWT secret has no default. |
| Configuration.BlankDatabaseDefaults | src/config/configuration.ts:4-16 | The defaults are 'localhost', port 5432, 'postgres', '', 'karnok_db', pool 2 and 10, and ssl 'false'. The URL has no default. |
| Configuration.SetValuesKept | src/config/configuration.ts:2-37 | Each non-empty string variable is taken verbatim, with no trimming or case change: PORT (which stays a string), NODE_ENV, DATABASE_HOST, DATABASE_USER, DATABASE_PASSWORD, DATABASE_NAME, DATABASE_SSL, JWT_EXPIRES_IN, API_PREFIX, API_VERSION, LOG_DIR and LOG_LEVEL. DATABASE_URL and JWT_SECRET are passed through whenever set, even when empty. |
| Configuration.CorsOriginRoundTrip | src/config/configuration.ts:26-28 | The origins contain no ',' and join back to CORS_ORIGIN exactly. |
| Configuration.CredentialsOnlyOffForFalse | src/config/configuration.ts:29 | Credentials are off exactly when CORS_CREDENTIALS is 'false'. |
| Configuration.HelmetOnlyInProduction | src/config/configuration.ts:32-33 | Both helmet flags are on exactly when the raw NODE_ENV is 'production'. |
| Configuration.NumericSettingsParsed | src/config/configuration.ts:7-13 | The DB port and pool bounds are the base-10 value of a digit string; '0' stays 0. |
| Numbers.ParseInt | src/config/configuration.ts:7-13 | `parseInt(s, 10)` is NaN exactly when no digits follow the white space and sign. '' is NaN, and a digit string gives its value. |
| Knex.SslFrom | src/database/database.config.ts:39-42 | `{rejectUnauthorized: false}` exactly for 'true', else `false` (never absent). |
| DatabaseConfig.CreateKnexConfig | src/database/database.config.ts:4-59 | Client 'pg' and the shared migrations and seeds. A non-empty URL is the connection string; otherwise the discrete parameters with ssl from `SslFrom`. The pool bounds fall back to 2 and 10 when 0 or NaN. debug is on exactly for '' or 'development'. |
| DatabaseConfig.PoolBoundsUsable | src/database/database.config.ts:14-46 | The pool bounds opened are never 0 and never NaN. |
| DatabaseConfig.FromEnvironment | src/database/database.config.ts:4-59 | From the environment: the URL wins exactly when DATABASE_URL is non-empty, and ssl is on only for DATABASE_SSL = 'true'. debug is on when NODE_ENV is unset, empty or 'development'. A pool minimum '0' opens 2. |
| Knexfile.Development | knexfile.ts:8-31 | Client 'pg', the shared migrations and seeds, debug on, and no ssl key. |
| Knexfile.ConnectionFrom | knexfile.ts:35-42 | A connection string exactly when DATABASE_URL is non-empty, and then it is the settings record's URL. Otherwise host, port, user, password and database are those of the settings record, with the given ssl. |
| Knexfile.PoolFrom | knexfile.ts:43-46 | The pool bounds are the settings record's parsed DATABASE_POOL_MIN and DATABASE_POOL_MAX, with no fallback for 0 or NaN. |
| Knexfile.Production | knexfile.ts:33-57 | Client 'pg', the shared migrations and seeds, and debug off. ssl is on exactly for DATABASE_SSL = 'true'. |
| Knexfile.EnvironmentsShareTheRest | knexfile.ts:8-57 | The two entries have the same pool and the same connection, apart from the ssl key. |
| Knexfile.ProductionMatchesApplication | knexfile.ts:35-42 | The production entry opens the same connection as `createKnexConfig`, for every environment. |
| Knexfile.PoolDiffersOnZero | knexfile.ts:43-46 | With DATABASE_POOL_MIN = '0', the command line uses a pool minimum of 0 and the application 2. |
| Knexfile.PoolAgreesOtherwise | knexfile.ts:43-46 | Away from 0 and NaN, the pool bounds agree with the application's. |
| Knexfile.DebugMatchesEntry | knexfile.ts:30-56 | The application's debug flag matches the entry NODE_ENV names. |
| BaseModels.BaseModel.IdColumn | src/database/base.model.ts:9-11 | 'id', a required key of the schema, typed integer. |
| BaseModels.BaseModel.JsonSchema | src/database/base.model.ts:13-22 | An object that requires `id`, with exactly `id`, `createdAt` and `updatedAt`. The timestamps are date-time strings. |
| BaseModels.BaseModel.ToRecord | src/database/base.model.ts:4-7 | The instance's JSON has one key per column that is set, with the column's value; an instance without an id has no `id` key. |
| BaseModels.BaseModel.BeforeInsert | src/database/base.model.ts:25-28 | Both timestamps are set, each from its own clock reading; `id` is unchanged. |
| BaseModels.BaseModel.BeforeUpdate | src/database/base.model.ts:30-32 | Only `updatedAt` changes; `createdAt` and `id` keep their values. |
| BaseModels.TypedColumns | src/database/base.model.ts:4-22 | Every column that is set has the type its schema property names: an integer id, string timestamps. |
| BaseModels.RecordConforms | src/database/base.model.ts:4-22 | As written, an instance satisfies the schema exactly when it has an id; an instance built for `insert`, whose id the database has yet to assign, is rejected by `required: ['id']`. |
| BaseModels.InsertSchema | src/database/base.model.ts:13-22 | Corrected: the same object schema and properties, with no required key. |
| BaseModels.InsertSchemaAcceptsEveryInstance | src/database/base.model.ts:4-22 | Every instance, with or without an id, satisfies the insert schema. |

## Left out

- Logging sinks are left out: the console `Logger` calls in the filters, winston itself, and `logger.service.ts` and `winston.config.ts`. The interceptor's records and lines are modelled, but not their being written.
- The clock is left out. `Date.now()` and `new Date().toISOString()` are parameters: milliseconds for durations and ISO text for timestamps. ISO formatting itself is not modelled.
- The framework plumbing is left out: NestJS's choice of which global filter receives an exception, the RxJS pipeline, `response.status().json()/send()`, and the `@Catch` decorators. Each filter is a function returning the status and body it writes.
- The process bootstrap is left out: `main.ts` (helmet, compression, CORS middleware, `listen`, log directory creation), `dotenv.config()` and `database.module.ts`.
- `src/types/index.ts` has no behaviour; its shapes are the datatypes in `Types`.
- The class hierarchies of NestJS, Objection and db-errors are not modelled as classes. A thrown value carries its set of classes. `InstanceOf` states the subclass facts the finding relies on, and the other lemmas quantify over every set.
- Numbers are integers or NaN. Floating point, precision loss past 2^53 and exponent notation are not modelled. `parseInt` reads decimal digits after JavaScript white space and one sign.
- AppModule.GetValidationConstraints: with `constraints` typed as an optional string map, the guard at src/app.module.ts:19-30 reduces to reading the field. A non-object value in that slot cannot be expressed.
- DatabaseConfig.CreateKnexConfig reads the settings record that `Configuration.Load` builds. `ConfigService.get`'s other sources (validated variables, a process variable named like the path) are not modelled.
- LoggingInterceptor.EndRecord: for a null or undefined error the error callback throws a TypeError, which RxJS passes on in place of the original value. That the filter then receives this TypeError is not modelled, and neither is its engine-specific message.
- LoggingInterceptor.ClientIp: headers are single strings keyed by lower-case name. A repeated header delivered as an array is not modelled.
- The HttpException `message` rendering: `String(value)` of a non-array `message` is taken as already rendered text (`MessageScalar`).

## Findings

| source | as written | input that shows it | evidently intended | confidence | as-written member | corrected member |
|---|---|---|---|---|---|---|
| src/filters/all-exception.filter.ts:28-29 | The first line of `catch` reads `exception.stack`, and `@Catch()` hands the filter every thrown value. | A guard whose `canActivate` does `throw null` or `throw undefined`: guards run before the interceptors, so the value reaches the filter as it is, the read throws a TypeError inside the filter and no response is written. The repository defines no guard. A handler's own `throw null` does not show it: the logging interceptor's error callback turns it into a TypeError, which gets the fallback envelope. | Read `exception?.stack`, so that null and undefined get the fallback envelope, 400 'An error occurred'. | medium, not executed (depends on Nest passing null and undefined to a `@Catch()` filter) | AllExceptions.Filter | AllExceptions.NullishGetsFallback |
| src/filters/normal-exception.filter.ts:14 | The status sent is the response's own `statusCode`, with 400 only when that is unset or 0. | Any handler that throws a NormalException, such as HTTP_REQUEST_TIMEOUT, on a response still at its initial 200: the client gets HTTP 200 with `status: false` in the body. | Send `exception.getStatus()`, 400, as `toApiResponse()` does. | medium, not executed (depends on Express starting every response at 200) | NormalExceptionFilter.SentAsSuccessStatus | NormalExceptionFilter.CatchIntended |
| src/database/base.model.ts:16 | The schema requires `id`, and Objection validates an `insert` against the schema before the database assigns the id. | `query().insert({...})` with no `id`: the validation rejects the row. | Leave `id` out of `required`, since the database assigns it. | medium, not executed (depends on Objection validating inserts against `jsonSchema`) | BaseModels.RecordConforms | BaseModels.InsertSchemaAcceptsEveryInstance |
| src/filters/all-exception.filter.ts:129-154 | DBError is tested before its subclass DataError, and ConstraintViolationError before its subclasses CheckViolationError and ForeignKeyViolationError. So the DataError, CheckViolation and ForeignKeyViolation branches can never run. | In production, a DataError gets 500 'Some errors occurred with database' instead of 400 'Bad data provided'. A CheckViolationError gets 'Constraint violation error' instead of 'Check violation error'. | Test each subclass before its superclass, so that every class reaches its own branch. | medium, not executed (depends on the db-errors subclass relations) | AllExceptions.ShadowedBranches | AllExceptions.IntendedReachesEveryBranch |
