# Claims-processing API: log shipping, claims service, schemas and settings

A Dafny model of the claims-processing API's core.

**The Loki log handler.** Every rendered log record becomes a one-stream
Loki push body. The handler keeps these bodies in an in-memory buffer. When
the buffer reaches 100 bodies it is flushed inline, as one push that carries
all buffered streams in order. The buffer is then cleared, whatever the push
ended in. The push is never retried.

**The request middleware.** Around every request, the middleware logs
`request_started`, then either `request_completed` or `request_failed`. The
structlog processors enrich each event before it is rendered.

**The flood script.** `scripts/flood_loki_with_errors.py` fabricates error
log entries and groups each batch into one stream per level. It posts the
batches with a sleep between consecutive sends.

**The claims service.** It offers owner-scoped create, read, update (a
partial update that applies only the explicitly set fields), delete and
list over a claims table. The table is modelled as an in-memory map from
claim id to claim record.

**The schemas.** The claim and user schemas are modelled as validity
predicates and as the list of field errors that validation reports.

**The settings.** The model covers the `Settings` values read from the
environment, the `BACKEND_CORS_ORIGINS` parsing and the `DATABASE_URI`
construction.

**Modules, one per source file:**

- `LokiLogging` (loki_handler.dfy): the handler.
  - The class `LokiHandler` has `buffer` and a `pushLog`. `pushLog` records every body posted to the sink.
  - A pure state machine (`Shipper`, `EmitStep`, `FlushStep`) carries the lemmas about runs of many `emit` calls.
  - `Emit` and `Flush` are proved to update the object exactly as `EmitStep` and `FlushStep` say.
- `RequestLogging`: `LoggingMiddleware.dispatch`, `LokiProcessor` and `request_id_processor`.
- `FloodLoki`:
  - `generate_log_entry`.
  - `send_to_loki`, whose grouping loop and stream loop are imperative.
  - The batch schedule of `main`.
- `ClaimService`:
  - The class `ClaimStore` with its `claims` map, and the methods `CreateClaim`, `UpdateClaim` (with the `setattr` loop) and `DeleteClaim`.
  - Pure query functions `GetClaim`, `GetClaimStatus` and `GetUserClaims`.
- `ClaimSchemas` and `UserSchemas`: the pydantic models.
- `Config`: the settings, with the environment as a map parameter.
- Shared helpers:
  - `LokiPush`: the push body and push outcomes.
  - `Text`: decimal rendering and parsing, `lower`, `strip`, `split`, `join`.
  - `Json`: JSON values and Python's `str` of them.
  - `Wrappers`: `Option` and `Result`.

**Parameters instead of effects.** Several effects become parameters of the model:

- The network: `PushOutcome` is what a `requests.post` ends in, either a status code or an exception.
- `uuid4()`: the minted id, or the new claim id.
- `random`: the `Draws` value.
- The clock: nanoseconds, and the ISO text.
- `json.dumps` / `self.format`: an opaque rendering.
- `os.getenv`: an environment map.

**Behaviour of the code worth knowing:**

- The labels `level`, `logger` and `application` are always set, from the log record. `level` is the lower-cased level name.
  - Only the six keys `request_id`, `method`, `path`, `status_code`, `client_ip` and `user_id` are copied from the event, and only when present.
  - `LabelsContents` states this.
- The handler holds the lock that `logging.Handler.__init__` creates (app/monitoring/logging.py:17).
  - `logging.Handler.handle` holds that lock around every `emit`, including the inline flush, so emits run one at a time. The model treats them as sequential.
  - Only a direct call to `flush()` takes no lock.
- A request carries two ids:
  - the middleware mints a token per request;
  - `request_id_processor` then overwrites `request_id` with a fresh `uuid4()` on every event.

  `CorrelationLost` shows the consequence: the two events of a request carry different ids, and neither carries the token.
- `ClaimInDB`, the response model of the create, read and update endpoints, validates the inherited `ClaimBase` fields again. A claim updated to a non-positive total is stored, but building its response then fails.
- The `procedures` column is JSONB. An update that sets `procedures` to None stores the JSON value `null`, which its NOT NULL constraint does not refuse, so the commit succeeds; the response of that row then fails, because `null` is not a list.

**Notes on the source:**

- `setup_logging_handler` (app/monitoring/logging.py:79-81) reads `settings.LOKI_HOST` and `settings.LOKI_PORT`.
  - `Settings` defines neither.
  - Nothing installs the handler.
  - The handler's constructor is modelled with host and port as parameters.
- `dispatch` reads `request.client.host` before its `try`. A request without a client address therefore raises `AttributeError` before any event is logged.

## Model

| member | source | states |
|---|---|---|
| `LokiPush.PushUrl` | app/monitoring/logging.py:20 | The push URL is `http://`, then the host, `:` and the port, then `/loki/api/v1/push`. Each piece sits at its own position, and the length is exactly their sum. |
| `LokiLogging.LokiHandler.constructor` | app/monitoring/logging.py:16-22 | A new handler has an empty buffer, a threshold of 100, nothing pushed, and the push URL of its host and port. |
| `LokiLogging.AllowedLabels` | app/monitoring/logging.py:34-43 | Exactly the allow-listed keys present in the decoded record become labels, each with the Python `str` of its value. |
| `Text.Lower` | app/monitoring/logging.py:29 | Lower-casing keeps the length. It maps each ASCII capital to its small letter and leaves every other character unchanged. |
| `LokiLogging.LabelsContents` | app/monitoring/logging.py:28-43 | The labels always hold `level` (lower-cased), `logger` and `application = "api"`. All other label keys are the allow-listed keys present in the record, stringified. Absent keys are never added. |
| `LokiLogging.BuildLabels` | app/monitoring/logging.py:28-43 | The label-building loop yields exactly the label map that `LabelsContents` describes. |
| `LokiLogging.RecordPayload` | app/monitoring/logging.py:45-52 | Each buffered body has exactly one stream with exactly one value: the decimal nanosecond timestamp and the rendered line. |
| `LokiLogging.Classify` | app/monitoring/logging.py:68-74 | A push is delivered iff the response status is below 400. It is rejected iff the status is 400 or more. It failed in transport iff the post raised. |
| `LokiLogging.FlushStep` | app/monitoring/logging.py:60-76 | An empty buffer makes flush a no-op. Otherwise flush makes one push of all buffered streams in buffer order. The buffer is empty afterwards in both cases. |
| `LokiLogging.EmitStep` | app/monitoring/logging.py:24-58 | A record that fails to render changes nothing. A rendered record is appended. A call never makes more than one push. The buffer stays below the threshold between calls. |
| `LokiLogging.LokiHandler.Emit` | app/monitoring/logging.py:24-58 | The handler's buffer and push log change exactly as `EmitStep` says, and the buffer invariant is kept. |
| `LokiLogging.LokiHandler.Flush` | app/monitoring/logging.py:60-76 | The handler changes exactly as `FlushStep` says. The buffer is cleared whatever the push outcome. The reported result is `NothingPending` for an empty buffer and the classified outcome otherwise. |
| `LokiLogging.EmitStepShipped` | app/monitoring/logging.py:45-55 | One emit extends the pushed-then-pending streams by exactly the record's stream. |
| `LokiLogging.EmitAllShipped` | app/monitoring/logging.py:24-76 | Over any run of emits, no stream is lost, duplicated or reordered: pushed-then-pending streams are the earlier ones plus one stream per rendered record, in order. |
| `LokiLogging.EmitAllPushesFullBatches` | app/monitoring/logging.py:54-55 | Every push made by emits carries exactly 100 streams. Earlier pushes are kept. The buffer stays below 100. |
| `LokiLogging.EmitsBelowThreshold` | app/monitoring/logging.py:52-55 | Fewer than 100 records into a new handler make no push, and the buffer holds their bodies in order. |
| `LokiLogging.HundredthEmitFlushes` | app/monitoring/logging.py:54-55 | The 100th record into a new handler makes exactly one push of the 100 streams in emit order, and leaves the buffer empty. |
| `LokiPush.ConcatSingles` | app/monitoring/logging.py:64-66 | Combining one-stream bodies gives one stream per body, in buffer order. |
| `Json.PyStr` | app/monitoring/logging.py:43 | The `str` of a string value is the string itself. The `str` of an integer parses back to that integer. |
| `Text.NatToString` | app/monitoring/logging.py:48 | `str(n)` of a non-negative integer is a non-empty string of decimal digits with no leading zero: it is `"0"` exactly when `n` is 0, and a leading `0` means the string is that single digit. `DigitsValueOfNatToString` proves it reads back as `n`. |
| `Text.IntToString` | app/monitoring/logging.py:43 | `str(i)` starts with `-` exactly when `i` is negative. `IntToStringRoundTrip` proves `int(str(i)) == i`. |
| `RequestLogging.Dispatch` | app/monitoring/logging.py:134-162 | The events and outcome of one request: `request_started` with method, path and client address, then either `request_completed` with the status code (and the response passed through), or, for an `Exception`, `request_failed` at error level with the message and exception type (and the same exception re-raised); any other `BaseException` is re-raised after the start event alone. Without a client address, the middleware raises before logging. |
| `RequestLogging.DispatchSequence` | app/monitoring/logging.py:145-162 | The event names of a request are start and completion, start and failure (an `Exception`), or start alone (any other `BaseException`). Only the completion event carries `status_code`. Response or exception reaches the caller unchanged. |
| `RequestLogging.LokiProcessor` | app/monitoring/logging.py:84-86 | The event dictionary is returned unchanged. |
| `RequestLogging.RequestIdProcessor` | app/monitoring/logging.py:89-91 | `request_id` is set to the freshly minted id, replacing any value passed in. Every other key is kept. |
| `RequestLogging.Enrich` | app/monitoring/logging.py:98-106 | After the processor chain the event's keys are its keyword fields plus `event`, `logger`, `level`, `timestamp` and `request_id`, holding the event name, logger name, level, ISO time and the processor's id; every other keyword field is kept. |
| `RequestLogging.CorrelationLost` | app/monitoring/logging.py:89-91 | For a request that logs two events, both carry the middleware's token before enrichment. After enrichment they carry two different processor ids, and neither event carries the token. |
| `FloodLoki.GenerateLogEntry` | scripts/flood_loki_with_errors.py:37-76 | The classification of a generated entry: `4xx` gives a client-error status and `warning`; `5xx` gives a status from 500 to 504 and `error`; anything else gives any listed status, with `error` iff the status is at least 500. Also: the request id is `req-` followed by the six digits of the drawn number; the response time is in 50..2000; the JSON line and the entry agree. |
| `FloodLoki.Levels` | scripts/flood_loki_with_errors.py:82-87 | The grouping keys are the distinct levels of the batch, without duplicates, and each appears in some entry. |
| `FloodLoki.GroupByLevel` | scripts/flood_loki_with_errors.py:82-87 | The grouping loop gives keys in first-appearance order. Each key maps to that level's entries in input order. |
| `FloodLoki.SendToLoki` | scripts/flood_loki_with_errors.py:79-117 | The posted body is the grouped payload. Success iff the post returned a status below 400. |
| `FloodLoki.LevelsInFirstAppearanceOrder` | scripts/flood_loki_with_errors.py:82-90 | Streams come in order of the first appearance of their level. |
| `FloodLoki.GroupedPayloadShape` | scripts/flood_loki_with_errors.py:89-104 | There is one stream per distinct level. Each stream is labelled exactly `job`, `level` and `filename`, and its values are that level's entries in input order. No two streams share a level. |
| `FloodLoki.EntriesAtMembers` | scripts/flood_loki_with_errors.py:82-87 | Every entry grouped under a level is an entry of the batch at that level. |
| `FloodLoki.GroupedValuesArePermutation` | scripts/flood_loki_with_errors.py:82-104 | The values of all streams are a permutation of the entries' values: grouping loses and duplicates nothing. |
| `FloodLoki.FloorDiv` | scripts/flood_loki_with_errors.py:160 | Python's `//`: the quotient rounded toward negative infinity. |
| `FloodLoki.FloorMod` | scripts/flood_loki_with_errors.py:161 | Python's `%`: `n == b * (n // b) + r`, with `r` taking the sign of `b`. |
| `FloodLoki.Interleave` | scripts/flood_loki_with_errors.py:163-187 | Sends at even positions and sleeps at odd ones. There is no sleep after the last send. |
| `FloodLoki.RunFlood` | scripts/flood_loki_with_errors.py:138-187 | A zero batch size raises ZeroDivisionError before any send. With a non-negative interval, or a plan without a sleep, the loop performs exactly the interleaving of the planned batch sizes and raises nothing. With a negative interval and a plan that has a sleep, the run stops after the first send with ValueError. |
| `FloodLoki.BatchPlan` | scripts/flood_loki_with_errors.py:160-187 | For `n >= 0` entries and batch size `b > 0`, the schedule is `n // b` batches of `b`, then one batch of `n % b` iff that is positive. Every batch size is in 1..b, and the sizes sum to `n`. |
| `ClaimSchemas.ParseStatus` | app/schemas/claim.py:9-14 | A status value is accepted only if it is the value of the member returned. |
| `ClaimSchemas.StatusValues` | app/schemas/claim.py:9-14 | There are exactly five status values: submitted, processing, approved, denied and pending. Parsing inverts taking the value. |
| `ClaimSchemas.StatusValueInjective` | app/schemas/claim.py:9-14 | Distinct members have distinct values. |
| `ClaimSchemas.ProcedureErrors` | app/schemas/claim.py:17-20 | A procedure is refused iff its description length is outside 1..500. The error points at that procedure's description. |
| `ClaimSchemas.ProceduresErrors` | app/schemas/claim.py:27 | A procedure list is refused iff some element is. |
| `ClaimSchemas.ProceduresErrorsAt` | app/schemas/claim.py:17-27 | Each invalid procedure is reported at its own list position, as `procedures.<index>.description`. |
| `ClaimSchemas.ClaimCreateErrors` | app/schemas/claim.py:23-33 | A create body is accepted iff it satisfies every constraint: patient_id and provider_id non-empty, every procedure valid, total_amount > 0. Each field's error is reported iff that field breaks its constraint. |
| `ClaimSchemas.ClaimUpdateErrors` | app/schemas/claim.py:36-43 | An update body is refused only for invalid procedures it carries. |
| `ClaimSchemas.UpdateLooserThanCreate` | app/schemas/claim.py:36-43 | An update may set an empty patient id and a non-positive total amount, which creation refuses. |
| `ClaimSchemas.MakeClaimInDB` | app/schemas/claim.py:23-53 | Building a `ClaimInDB` succeeds iff the inherited `ClaimBase` fields satisfy their constraints. On failure it reports exactly their validation errors, and there is at least one. On success the result is valid, and a missing status defaults to SUBMITTED while a given one is kept. |
| `ClaimSchemas.StatusResponse` | app/schemas/claim.py:56-62 | The status view keeps exactly the id, the status and the update time of the claim. |
| `UserSchemas.UserCreateErrors` | app/schemas/user.py:7-13 | A new user is accepted iff full_name has 2..100 characters, username has 3..50 and password has at least 8. Each field is reported iff it breaks its bound. |
| `UserSchemas.PasswordUnbounded` | app/schemas/user.py:12-13 | Lengthening a valid password never makes the user invalid: there is no upper bound. |
| `UserSchemas.UserLoginErrors` | app/schemas/user.py:16-18 | A login body is never refused: `UserLogin` puts no constraint on its fields. |
| `UserSchemas.LoginLooserThanCreate` | app/schemas/user.py:7-18 | Any credentials that user creation refuses for their lengths are still accepted by the login schema. |
| `UserSchemas.MakeToken` | app/schemas/user.py:30-33 | An omitted token type is `bearer`. |
| `UserSchemas.ParseTokenPayload` | app/schemas/user.py:36-38 | A payload is accepted iff `sub` is a string and `exp` is an integer. On failure, `sub` is reported iff it fails, and so is `exp`. |
| `UserSchemas.TokenPayloadRoundTrip` | app/schemas/user.py:36-38 | Validating the body of a payload gives the payload back. |
| `UserSchemas.ParseTokenRefresh` | app/schemas/user.py:41-42 | A refresh body is accepted iff `refresh_token` is a string. |
| `ClaimService.GetClaim` | app/services/claim.py:30-36 | A claim is returned only if it has that id and that owner. None is returned only if no row has both. |
| `ClaimService.GetClaimIsQuery` | app/services/claim.py:33-36 | The result of `get_claim` is exactly what the owner-scoped query selects. The query selects at most one row. |
| `ClaimService.ForeignClaimHidden` | app/services/claim.py:33-36 | A claim owned by another user is never returned. |
| `ClaimService.GetClaimStatus` | app/services/claim.py:39-45 | A claim is returned iff it exists and is owned by the caller. |
| `ClaimService.StatusQueryIsClaimQuery` | app/services/claim.py:39-45 | `get_claim_status` and `get_claim` agree on every input. |
| `ClaimService.GetUserClaims` | app/services/claim.py:84-86 | Only the user's own claims are listed. |
| `ClaimService.UserClaimsAgreeWithGetClaim` | app/services/claim.py:84-86 | A user's list contains a claim with a given id iff `get_claim` finds it for that user. |
| `ClaimService.NewClaim` | app/services/claim.py:14-23 | A new claim is owned by the caller, has status SUBMITTED and copies every other field from the request. |
| `ClaimService.NewClaimKeepsRequest` | app/services/claim.py:14-23 | The stored fields are exactly the request's, so a valid request yields a claim whose `ClaimInDB` response succeeds. |
| `ClaimService.ClaimResponse` | app/schemas/claim.py:46-53 | The response of a stored row succeeds iff its procedures are a list (not JSON `null`) and the inherited fields satisfy the create constraints. A `null` list fails at `procedures`; on success the response carries the row's fields, id and status. |
| `ClaimService.UpdateDataListsSetFields` | app/services/claim.py:55 | The `exclude_unset` data lists exactly the explicitly set fields: a field has an entry iff it was set. Each entry carries the value it was set to, and the entries come in declaration order. |
| `ClaimService.ApplyUpdate` | app/services/claim.py:55-65 | A field-wise update never changes id or owner. It fails iff a NOT NULL column other than the JSONB `procedures` is explicitly set to None, or the total amount is set to a value the `Numeric(10,2)` column cannot hold. Setting `procedures` or `notes` to None succeeds. |
| `ClaimService.SetAttr` | app/services/claim.py:64-65 | One `setattr` followed by the commit's column check. It fails iff the claim already failed, or the value is None for a NOT NULL column other than `procedures`, or an amount that does not fit. Otherwise exactly the named field takes the value, and id and owner are kept. |
| `ClaimService.UpdateTouchesOnlySetFields` | app/services/claim.py:55-65 | Exactly the explicitly set fields change, to the given values. Every other field keeps its value. |
| `ClaimService.UpdateIdempotent` | app/services/claim.py:55-65 | Applying the same update twice equals applying it once. |
| `ClaimService.EmptyUpdateKeepsClaim` | app/services/claim.py:55-65 | An update that sets nothing leaves the claim unchanged. |
| `ClaimService.SetAllIsApplyUpdate` | app/services/claim.py:64-65 | The `setattr` loop over the set fields computes the field-wise update. |
| `ClaimService.UpdateCanBreakCreateConstraints` | app/schemas/claim.py:41 | A valid claim can be updated to a negative total. The update schema accepts this, but the create constraints refuse it and building its `ClaimInDB` response fails. |
| `ClaimService.NullProceduresCommitButBreakResponse` | app/models/claim.py:30 | An update setting `procedures` to None passes the update schema and commits, storing JSON `null`. Building the row's `ClaimInDB` response then fails at `procedures`. |
| `ClaimService.ClaimStore.CreateClaim` | app/services/claim.py:11-27 | The store gains exactly the new claim under its fresh id, and `get_claim` then finds it for its owner. An amount that does not fit its column, or an id already in use, fails and changes nothing. Every stored amount fits its column before and after. |
| `ClaimService.ClaimStore.UpdateClaim` | app/services/claim.py:48-69 | A missing or foreign claim gives None and changes nothing. A rejected commit (a NOT NULL column other than `procedures` set to None, or an amount that does not fit) changes nothing. Otherwise the claim is replaced by the field-wise update and nothing else changes. |
| `ClaimService.ClaimStore.DeleteClaim` | app/services/claim.py:72-81 | Returns true iff the caller owns such a claim. Exactly that claim is removed. Otherwise nothing changes. |
| `ClaimService.DeleteForgetsOnlyThatClaim` | app/services/claim.py:72-81 | After a delete, the claim is gone for every user, and every other claim is fetched as before. |
| `Config.CorsOrigins` | app/core/config.py:28-30 | The origin list is never empty, no origin contains a comma, and joining with commas gives back the bracket-stripped string. |
| `Config.DefaultCorsOriginsKeepQuotes` | app/core/config.py:28-30 | The default `["*"]` gives the single origin `"*"` with its quotes. |
| `Config.CorsOriginsKeepSpaces` | app/core/config.py:28-30 | Whitespace after commas is kept: for any two comma-free pieces `a` and `b` that put no bracket at the ends, `[a, b]` gives `a` and ` b`. |
| `Text.Strip` | app/core/config.py:29 | `strip` removes only leading and trailing characters from the set, and leaves no such character at either end. |
| `Text.Split` | app/core/config.py:29 | `split` yields at least one piece, and no piece contains the separator. |
| `Text.JoinSplit` | app/core/config.py:29 | Joining the pieces of a split gives back the original string. |
| `Text.ParseInt` | app/core/config.py:15-18 | `int()` accepts a string iff it is a non-empty run of digits, or a `+` or `-` followed by a non-empty run of digits. A run of digits parses to the number it denotes. Without a minus sign the value is non-negative. |
| `Config.DatabaseUri` | app/core/config.py:32-34 | The URI is the scheme, then user, `:`, password, `@`, host, `:`, port, `/`, database, each at its computed position and unescaped. |
| `Config.DatabaseUriAmbiguous` | app/core/config.py:32-34 | Because nothing is escaped, two different settings can give the same URI. |
| `Config.LoadSettings` | app/core/config.py:9-30 | Loading fails with ValueError iff one of the three integer variables is malformed. Otherwise each of the thirteen attributes is its variable or its default, with the three integers parsed. |
| `Config.Getenv` | app/core/config.py:10-29 | `os.getenv(key, default)` is the variable's value when it is set, and the default otherwise. |
| `Config.DefaultSettings` | app/core/config.py:10-30 | With nothing set, the defaults are: prefix `/api/v1`, algorithm `HS256`, access-token expiry 30, refresh-token expiry 7, port `5432`, metrics port 9090, CORS origins `"*"`. |
| `Config.DefaultDatabaseUri` | app/core/config.py:32-34 | The default URI is `postgresql+asyncpg://postgres:postgres@db:5432/claims_db`. |
| `Config.MalformedExpiryFails` | app/core/config.py:15-17 | An access-token expiry holding an ASCII letter or a dot at any position makes loading fail with ValueError, whatever else is set. |

## Left out

**Effects:**

- **Network pushes.** Both `requests.post` calls are a `PushOutcome` parameter. The handler appends each posted body to `pushLog`, and `SendToLoki` returns it. Headers and the JSON encoding of the body are not modelled.
- **Diagnostic `print`s.** The prints in `emit`, `flush`, `send_to_loki` and `main` produce no model state.
- **Rendering.** Rendering a record (`self.format`, `json.loads`, `json.dumps`) is opaque: a record arrives rendered or as a rendering failure. The flood script's `json.dumps` is a function parameter.
- **Time.** The nanosecond conversion `int(record.created * 1_000_000_000)` is outside the model: records carry whole nanoseconds. `time.time()`, `datetime.now()` and `time.sleep` are parameters or a `Sleep` step.
- **Randomness.** `random` and `uuid4()` are parameters.
- **Logging setup.** `setup_logging`, `setup_logging_handler` and `get_logger` are not modelled. These are handler installation, structlog configuration, `os.makedirs` and the file and console handlers. The processors that run before `request_id_processor` (level filter, logger name, level, positional arguments, timestamp) appear only as the keys `Enrich` adds.
- **Concurrency.** The handler lock makes `emit` calls run one after another, and the model runs them in sequence. A direct `flush()` call racing an `emit` is not modelled, because such a call takes no lock.

**Framework glue:**

- `LoggingMiddleware.__init__` and the ASGI wiring of the middleware are not modelled.
- The database session, transactions and `refresh` are not modelled. A commit either stores the new table or leaves it unchanged.
- The `created_at`/`updated_at` timestamps are not modelled.
- `ClaimService.ClaimStore.CreateClaim`, `ClaimService.ClaimStore.UpdateClaim`: the `Numeric(10,2)` column stores `total_amount` rounded to cents. The model keeps the unrounded amount. The column's range limit is modelled: `FitsNumeric` makes the commit fail for amounts that round to 10^8 or more.
- `update_claim` converts procedures with `.dict()`. This changes only their representation, and procedures stay values here.
- The FastAPI endpoints are not modelled. They only map None and False to 404.

**Auth, metrics and other scripts:**

- `app/services/user.py`, `app/core/security` and metrics are not modelled.
- `UserInDB` is not modelled beyond the `UserBase` constraints it inherits.
- `scripts/generate_error_logs.py` and `generate_fake_logs.py` are not modelled.

**Values:**

- Amounts are `real`, with no float rounding.
- Dates are given values, with no calendar validation.
- UUIDs are opaque `nat`s.

**Deliberately weaker contracts:**

- `UserSchemas.ParseTokenPayload`: pydantic's lax coercions are not modelled. A digit string is not accepted for `exp`, and other scalar types are not coerced to `sub`.
- `Text.ParseInt`: Python's `int()` also accepts surrounding whitespace, `_` digit separators and non-ASCII decimal digits (Arabic-Indic, fullwidth and others). The model accepts only ASCII digits after an optional sign.
- `Text.Lower`: Python's `str.lower()` lower-cases every cased Unicode character. The model lower-cases only ASCII `A`-`Z`. It is applied to `record.levelname`, whose standard values are ASCII.
- `FloodLoki.RunFlood`: the entries of each batch, and the outcome of each send, are not part of the result. Failed sends do not change the schedule in the source either. Only the interval's sign is modelled, because a negative interval makes `time.sleep` raise. The sleep's duration is not part of a `Sleep` step.
- `Config.LoadSettings`: `load_dotenv` is not modelled. The environment map is taken as already holding whatever a `.env` file would add.
- The flood script's command-line parsing (`argparse`) is not modelled. The entry count and batch size are parameters of `RunFlood`.
