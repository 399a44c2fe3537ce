# Schema lifecycle control layer, modelled in Dafny

This project models the control logic of a schema-registry service that sits
between its callers and three external services: AWS Glue (the schema store),
SQS (the lifecycle queue) and Upstash (the rate-limit counter). Each external
call is an abstract outcome passed in as an input: it threw, or it returned a
response whose fields may each be absent. The model covers the code around
those outcomes:

- **Lifecycle queue consumer** (`queue_consumer.dfy`). This is an SQS-triggered
  batch loop. It shape-checks each record, sends one Glue delete per record that
  passes, and turns every failure of a record into one entry of `failedRecords`
  instead of aborting the batch. It then logs that list once. The loop is a
  method proved against the specification functions `FailedRecords` and
  `DeletesSent`. Lemmas about those functions prove that each record adds at
  most one entry, in arrival order, paired with its record. They also prove
  that the record's own iteration alone decides its entry.
- **Registry client** (`schema_registry.dfy`). `checkSchemaVersionValidity`,
  `createSchema` and `registerSchemaVersion` are modelled as functions. Each maps
  the outcome of its single Glue `send` to a tagged `Result`: `UNKNOWN_ERROR`
  when the call threw, `EMPTY_RESPONSE` when a required field is absent or
  falsy, and otherwise the success data.
- **Create-schema route** (`create_schema_handler.dfy`). It is an ordered guard
  chain over the method, the body and the create call, and each step maps to
  one status code and body.
- **Validity-check route** (`validity_handler.dfy`). It validates the body,
  then passes the registry's result through unchanged.
- **Outbound notifier** (`sqs.dfy`). It builds the queue message from its
  arguments and maps the send outcome to a `Result`.
- **Admission gate** (`middleware.dfy`). It derives the limiter key with the
  loopback fallback and chooses between pass-through and a rewrite to
  `/api/blocked`. It stamps the three quota headers on a response object whose
  header map is updated in place.

Shared pieces: `outcomes.dfy` holds optional fields, `Result`, call outcomes
and JavaScript truthiness. `zod.dfy` models JavaScript values and the zod
object checks the routes and the consumer run, with issues carrying the path of
the field they concern. `http.dfy` holds the request and the error bodies.
`decimal.dfy` models `Number.prototype.toString` for integers, with its parse
back.

Behaviour kept as the code has it:

- The consumer validates `JSON.stringify(record.body)`. The body is already a
  string, so the value checked is a string, and the object schema rejects every
  record. No delete is ever sent (`QueueConsumer.EveryRecordRejectedAsWritten`).
  The delete path is still modelled: `QueueConsumer.RecordStep` takes the parse
  result as a parameter, so its properties hold for any parse outcome.
- The consumer logs its list even when it is empty (queueConsumer.ts:63).
- `z.string()` accepts the empty string, so a record with `schemaName: ""`
  would pass the shape check (queueConsumer.ts:10). As written it fails
  anyway, like every record.
- The consumer's delete fills Glue's `RegistryName` with `Config.QUEUE_URL`
  (queueConsumer.ts:47), a queue URL rather than a registry name
  (`QueueConsumer.DeleteCommandFor`).
- The validity route's format enum spells the third value "PROTOBUFF". So
  "PROTOBUF" is rejected, and "PROTOBUFF" is forwarded to Glue as the data
  format. The route also answers a failed check (`UNKNOWN_ERROR`) with status
  200.
- The middleware's log line interpolates `req.ip` itself, not the fallback
  address.

## Model

| member | source | states |
|---|---|---|
| `Zod.FieldIssues` | services/functions/queueConsumer.ts:10-12 | A field yields no issue exactly when its schema (string, number or enum) accepts the value. Otherwise it yields one issue at that field's path. |
| `Zod.ShapeIssues` | services/functions/queueConsumer.ts:9-13 | An object's issues are empty exactly when every declared field conforms. There are at most as many issues as fields, each at a declared field's path. |
| `Zod.ShapeIssuesPerField` | services/functions/queueConsumer.ts:9-13 | When the keys are distinct, the issues at each field's path are exactly that field's own issues: none when it is accepted, otherwise one. |
| `Zod.ObjectIssues` | services/functions/queueConsumer.ts:29 | An object schema reports no issue exactly when the value is an object of that shape. A non-object gets one root issue "expected object". |
| `Zod.StringNeverConforms` | services/functions/queueConsumer.ts:29 | A string value never satisfies an object schema. |
| `QueueConsumer.CheckedValueQuotesBody` | services/functions/queueConsumer.ts:29 | The value checked is `JSON.stringify(record.body)`: a string holding the body between two double quotes, never an object. This states `CheckedValue` and `StringifyString`. |
| `QueueConsumer.ParseMessageBody` | services/functions/queueConsumer.ts:9-13 | The message check succeeds exactly when the value has string `schemaName`, string `versionId` and number `versionNumber`. The parsed data carries those values, and a failure carries the schema's issues. |
| `QueueConsumer.DeleteCommandFor` | services/functions/queueConsumer.ts:42-51 | The delete names `Config.QUEUE_URL` as the registry and the body's `schemaName`. The version fields are not used. |
| `QueueConsumer.RecordStep` | services/functions/queueConsumer.ts:28-60 | A failed shape check yields one VALIDATION_ERROR entry with the issues and sends no delete. A passed check sends exactly one delete. The record adds nothing if the delete resolves, and one UNKNOWN_ERROR entry with the thrown value if it throws. |
| `QueueConsumer.ProcessRecord` | services/functions/queueConsumer.ts:28-60 | The `try` body for one record produces exactly the entries and deletes that `RecordStep` specifies. |
| `QueueConsumer.FailedRecords` | services/functions/queueConsumer.ts:27-61 | A batch has at most as many entries as records. |
| `QueueConsumer.DeletesSent` | services/functions/queueConsumer.ts:42-51 | A batch sends at most one delete per record. |
| `QueueConsumer.ConsumeBatch` | services/functions/queueConsumer.ts:19-64 | The loop visits every record whatever failed before it. Its list and its deletes are those of the specification. The logger is called exactly once, with the whole list, even when it is empty. |
| `QueueConsumer.FailingPositions` | services/functions/queueConsumer.ts:27-61 | The positions of the records that add an entry are in range and strictly increasing. |
| `QueueConsumer.FailuresFollowRecords` | services/functions/queueConsumer.ts:32-59 | `failedRecords` lists exactly the records whose iteration failed, in arrival order, one entry each. Each entry is paired with its original record and the reason from its own iteration. |
| `QueueConsumer.DeletesFollowValidRecords` | services/functions/queueConsumer.ts:42-51 | Deletes are sent for exactly the records that pass the shape check, one each, in arrival order, each naming that record's schema. |
| `QueueConsumer.BatchSplits` | services/functions/queueConsumer.ts:27-61 | Failure isolation: the entries and deletes of a batch are those of its two halves processed on their own. |
| `QueueConsumer.EveryRecordRejectedAsWritten` | services/functions/queueConsumer.ts:29-40 | As written, every record becomes a VALIDATION_ERROR entry with the root issue "expected object, received string", and no delete is sent. |
| `QueueConsumer.NotifierPayloadHasMessageShape` | web/src/utils/sqs.ts:15-20 | The notifier's payload passes the consumer's message check and yields the same schema name, version id and version number. |
| `SchemaRegistry.DataFormatNamed` | web/src/utils/schema-registry.ts:15-16 | Reading a data format from a name inverts `DataFormatName`. A name that matches no format yields none. |
| `SchemaRegistry.CompatibilityNamed` | web/src/utils/schema-registry.ts:18-26 | Reading a compatibility mode from a name inverts `CompatibilityName`. A name that matches no mode yields none. |
| `Outcomes.OrFalse` | web/src/utils/schema-registry.ts:67 | `res.Valid`, or-ed with `false`, is true exactly when `Valid` is present and true. |
| `SchemaRegistry.CheckSchemaVersionValidity` | web/src/utils/schema-registry.ts:48-80 | It sends exactly one check command with the given format and definition. A throw becomes UNKNOWN_ERROR with that value. A response is a success whose `isValid` is true exactly when `Valid` was true, and whose `error` is passed through. |
| `SchemaRegistry.CreateSchema` | web/src/utils/schema-registry.ts:82-134 | It sends exactly one create command with the generated name and the configured registry. A throw becomes UNKNOWN_ERROR. A response lacking a non-empty `SchemaName` or `SchemaVersionId` becomes EMPTY_RESPONSE, exactly. A success copies both fields. |
| `SchemaRegistry.RegisterSchemaVersion` | web/src/utils/schema-registry.ts:136-182 | It sends exactly one register command. A throw becomes UNKNOWN_ERROR. A response whose `VersionNumber` is absent or 0, or whose id or status is absent or empty, becomes EMPTY_RESPONSE, exactly. A success copies id, number and status verbatim. |
| `SchemaRegistry.ZeroVersionNumberIsEmpty` | web/src/utils/schema-registry.ts:157-163 | A version number of 0 is an EMPTY_RESPONSE even when id and status are present. |
| `Sqs.Payload` | web/src/utils/sqs.ts:15-20 | The message body is an object with exactly the four argument properties and their values. |
| `Sqs.SendRegisteredSchema` | web/src/utils/sqs.ts:25-52 | It sends exactly one message, to the given queue, with the payload of the args. A resolved send is success with empty data. A throw is UNKNOWN_ERROR carrying the thrown value. |
| `CreateSchemaHandler.FormatOptionNamed` | web/src/pages/api/schemas/index.ts:15 | Every accepted format option names a data format of the registry. |
| `CreateSchemaHandler.CompatibilityOptionNamed` | web/src/pages/api/schemas/index.ts:17-26 | Every accepted compatibility option names a compatibility mode of the registry. |
| `CreateSchemaHandler.ParseReqBody` | web/src/pages/api/schemas/index.ts:14-27 | The body check succeeds exactly when `format` is one of 3 names, `definition` is a string and `compatibility` is one of 8 modes. The data carries those values, and a failure carries the issues. |
| `CreateSchemaHandler.MethodSupported` | web/src/pages/api/schemas/index.ts:50 | `supportedMethods.includes`, applied to the method or `""`, holds exactly when the method is POST. An absent or empty method falls back to `""` and is refused. |
| `CreateSchemaHandler.Handle` | web/src/pages/api/schemas/index.ts:43-85 | The guards run in order. A non-POST method, a missing one included, gets 400 INVALID_REQUEST before the body is examined. A bad body gets 400 VALIDATION_ERROR with its issues. Only then is `createSchema` called, exactly once. Either failure kind gets 500 INTERNAL_ERROR "Unable to create schema", and a success gets 200 with the name and version id. No other status occurs. |
| `CreateSchemaHandler.CreatedExactlyOnUsableResponse` | web/src/pages/api/schemas/index.ts:70-84 | The route answers 200 exactly when both guards pass and Glue returned a non-empty schema name and version id. The body is then those two values. |
| `CreateSchemaHandler.SchemaNameIsGenerated` | web/src/utils/schema-registry.ts:100-104 | For an accepted request, the schema name sent to Glue is the generated one and the registry is the configured one. |
| `ValidityHandler.ParseReqBody` | web/src/pages/api/check-schema-version-validity.ts:5-8 | The body check succeeds exactly when `format` is JSON, AVRO or "PROTOBUFF" and `definition` is a string. The data carries those values. |
| `ValidityHandler.Handle` | web/src/pages/api/check-schema-version-validity.ts:26-40 | An invalid body gets 400 VALIDATION_ERROR with the fixed message and its issues, and no check is made. A valid body is checked exactly once, and the registry's result is the 200 body, unchanged. |
| `ValidityHandler.ProtobufRejected` | web/src/pages/api/check-schema-version-validity.ts:5-8 | A body whose format is "PROTOBUF" gets 400 and reaches no backend. |
| `ValidityHandler.ProtobuffForwarded` | web/src/pages/api/check-schema-version-validity.ts:38 | "PROTOBUFF" is accepted and sent to Glue as the data format. |
| `ValidityHandler.MethodIsIgnored` | web/src/pages/api/check-schema-version-validity.ts:26-40 | The answer does not depend on the HTTP method. |
| `ValidityHandler.FailedCheckAnsweredWith200` | web/src/pages/api/check-schema-version-validity.ts:38-39 | A check that threw is answered with status 200 and the UNKNOWN_ERROR result as the body. |
| `Decimal.DigitValue` | web/src/middleware.ts:41-43 | A digit's value is below 10. |
| `Decimal.DigitChar` | web/src/middleware.ts:41-43 | Each value below 10 renders as the digit with that value. |
| `Decimal.NatToString` | web/src/middleware.ts:41-43 | A natural number renders as a non-empty digit string with no leading zero. |
| `Decimal.NatToStringRoundTrip` | web/src/middleware.ts:41-43 | The digit string of a natural number reads back as that number. |
| `Decimal.IntToStringRoundTrip` | web/src/middleware.ts:41-43 | `toString` of an integer parses back to that integer. |
| `Middleware.LimiterKey` | web/src/middleware.ts:22-26 | The key is `"mw_"` followed by the caller's address, or `"127.0.0.1"` when the address is absent. |
| `Middleware.SameKeyIffSameIdentity` | web/src/middleware.ts:22-26 | Two requests share a limiter key exactly when they share an identity. Requests without an address share the loopback address's quota. |
| `Middleware.MatcherApplies` | web/src/middleware.ts:47-49 | `Matcher`, `/api/:path*`, selects exactly `/api` and the paths that start with `/api/`. |
| `Middleware.MatcherCoversSubtree` | web/src/middleware.ts:47-49 | Every path below `/api/` reaches the middleware, and no path that does not start with `/api` does. |
| `Middleware.BlockedPathIsGated` | web/src/middleware.ts:47-49 | `/api/:path*` covers `/api/blocked`, and it does not cover `/apis` or `/`. |
| `Middleware.RouteFor` | web/src/middleware.ts:37-39 | Success passes the request through. Refusal rewrites it to `/api/blocked`, resolved against the request's URL. |
| `Middleware.QuotaHeaders` | web/src/middleware.ts:41-43 | The quota headers are exactly the three names. |
| `Middleware.QuotaHeadersCarryValues` | web/src/middleware.ts:41-43 | Each quota header's value reads back as the limiter's number. |
| `Middleware.NextResponse.Next` | web/src/middleware.ts:38 | `NextResponse.next()` is a fresh pass-through response with no headers yet. |
| `Middleware.NextResponse.Rewrite` | web/src/middleware.ts:39 | `NextResponse.rewrite(new URL(path, base))` is a fresh rewrite response to that path and base, with no headers yet. |
| `Middleware.IpText` | web/src/middleware.ts:29 | The log interpolates `req.ip` itself: the text names the limiter's identity exactly when the address is present, and reads "undefined" otherwise. |
| `Middleware.Headers.Set` | web/src/middleware.ts:41-43 | `headers.set` adds or replaces exactly one header. |
| `Middleware.HandleRequest` | web/src/middleware.ts:16-45 | The keys it passes to the limiter are exactly one, the derived key. It logs RATELIMIT_EXCEEDED only on refusal. It routes by the limiter's verdict, and on both branches the response headers are exactly the three quota values. |

## Left out

- The Glue, SQS and Upstash clients are not modelled. Each is the outcome of one call, an input: Glue's deletion semantics and compatibility checks, SQS delivery and Upstash's fixed-window counting and its atomicity are theirs. The limiter's 10-per-10-seconds fixed window (middleware.ts:13) is not modelled; the limiter's answer is an input.
- `nanoid()` is an unconstrained input `generatedName`. No distinctness is claimed, because the code does not implement any. The configured registry name (`env.SCHEMA_REGISTRY_NAME`) and `Config.QUEUE_URL` are inputs too.
- The `SchemaRegistry` and `SQS` classes and their global instances are not modelled as objects. Their client field is never updated, so each method is a function of its arguments.
- zod's `.format()` rendering into nested `_errors` objects is not modelled. The issue list, with each issue's path, stands for it. For an enum field given a non-string, zod's expected text lists the options, and the model records "expected string".
- `JSON.stringify` is not modelled in detail. For a string, the model quotes it without escaping, which is enough to show that the result is a string. For the notifier's payload, the message carries the serialised value itself.
- `Decimal.IntToString`: `Number.prototype.toString` switches to exponent form at magnitudes of 10^21 and above; the model renders every integer in plain decimal. The limiter's limit, remaining count and reset time stay far below that.
- JavaScript numbers are modelled as integers, so NaN, fractions and infinities are left out. A `VersionNumber` of NaN, which is falsy, is not represented.
- Logging in the two API routes (`log.info`, `log.error`) is not modelled. The consumer's one `logger.error` call and the middleware's refusal log are returned as outputs.
- Middleware: `event.waitUntil(pending)` is not modelled. A limiter call that throws is not modelled either; it would propagate out of the middleware. The rewrite target is recorded as its path and the request URL it is resolved against; URL resolution itself is not modelled. Headers that the framework itself adds to `next()` and `rewrite()` responses are not modelled, and header-name case folding is not modelled.
- `Middleware.HandleRequest`: the request matcher is applied by the framework, not by the middleware, so the method does not check the path. `Middleware.MatcherApplies` states which paths reach it.
- `web/src/backend/check-schema-version-validity.ts` is a one-line pass-through. `ValidityHandler.Handle` calls the registry function directly instead.
- The request handler for registering a version, the React/Next UI, react-query hooks, markdown rendering, infrastructure stacks and `web/src/utils/schemaRegistry.ts` are not part of this model.
- Concurrency, timeouts and queue redelivery are not modelled, because none of them is implemented in this code.
