# ascetic-api core, modelled in Dafny

This project models the logic of the ascetic-api Express service that does
not depend on its frameworks. It has four parts.

- **Cache client** (`Cache`, with `Glob`): the `RedisCache` class.
  - It has a writer and a reader connection slot, filled lazily.
  - `close` empties both slots, but only when both quits succeed.
  - `get`, `getdel` and `getTtl` always close afterwards. `set`, `delete` and `deleteByPattern` never close.
  - Every key is namespaced with `CACHE_`.
  - The server-side script behind `deleteByPattern` is a SCAN/DEL loop.
  - The store is a `KeyValueStore` object holding a map from keys to values with optional expiry. The store commands the client sends (GET, GETDEL, SET, PSETEX, DEL, TTL, SCAN … MATCH) are functions on that map.
  - Faults are a `Faults` parameter of every call: building a connection throws, a command throws, or a quit throws.
  - The reconnect policy (`RetryStrategy`, `ReconnectOnError`) is two pure functions.
- **HTTP client** (`HttpClient`):
  - the fixed configuration (10000 ms timeout, 1000 ms base delay, 3 retries);
  - the retry predicate and the linear retry delay;
  - the form body, built by a loop in `Client.Fetch`;
  - the four-way normalisation of a failed request into a `{status, data}` reply (`Normalise`).
- **Request gate and error envelope**:
  - `Auth`: the API-key middleware;
  - `Exceptions`: the nine exception classes, as one tagged union of kinds;
  - `ErrorHandler`: the middleware that turns errors into replies.
- **Validators**:
  - `ArrayObjects`: `isArrayWithObjects`;
  - `UserValidation`: the user request schema. Its email-format check is a parameter.

`Basics` holds `Option`, `Result` and substring search. `JsValues` holds a dynamic JavaScript value, property lookup and `String(…)`.

Three behaviours of the code that a caller might not expect:
- `set` followed by `get` on the same client does not read the value back. `set` fills only the writer slot, and `get` builds a reader only when both slots are empty, so once `set` has built its writer, `get` reads through a null reader and returns null (`Cache.SetThenGetReadsNothing`). With a `close` in between, the value does come back (`Cache.SetCloseGetRoundTrip`).
- A 503 answer is not retried. The retry predicate lists only 408, 429, 500 and 401 (`HttpClient.NonRetryableStatuses`).
- Only the code-and-message branch of the failure normalisation removes the `Authorization` header from the stack it returns. The last branch returns the error unredacted (`HttpClient.RedactionOnlyWithCode`), and so, through the response's own config, can the first; see "## Left out".

## Model

| member | source | states |
|---|---|---|
| Basics.Includes | src/core/clients/redis.ts:75 | `message.includes(sub)`: true exactly when `sub` occurs at some index of `message` |
| JsValues.ToJsString | src/core/common/utils/http-client.util.ts:61 | `String(v)` leaves a string unchanged |
| Cache.RetryStrategy | src/core/clients/redis.ts:63-71 | gives up (null) exactly when `times >= 3`; a delay is never above 1000 ms |
| Cache.RetryDelaysNondecreasing | src/core/clients/redis.ts:63-71 | while retrying, a later attempt never waits less than an earlier one |
| Cache.RetryCapNeverReached | src/core/clients/redis.ts:63-71 | every delay actually returned is `200 * times` and at most 400 ms, so the 1000 ms cap never applies |
| Cache.ReconnectOnError | src/core/clients/redis.ts:73-80 | reconnect exactly when the error message contains "READONLY" |
| Cache.GetCmd | src/core/clients/redis.ts:166 | GET answers the stored value exactly when the key exists |
| Cache.GetDelCmd | src/core/clients/redis.ts:189 | GETDEL answers what GET would and removes that key only |
| Cache.SetCmd | src/core/clients/redis.ts:219 | SET stores the value without expiry and leaves every other key as it was |
| Cache.PSetExCmd | src/core/clients/redis.ts:216 | PSETEX is refused exactly for a non-positive expiry; otherwise it stores the value with that expiry and leaves other keys alone |
| Cache.DelCmd | src/core/clients/redis.ts:234 | DEL removes that key only |
| Cache.TtlCmd | src/core/clients/redis.ts:291 | TTL is -2 exactly for a missing key, -1 exactly for a key without expiry, and non-negative exactly for an expiring key |
| Cache.ScanFilter | src/core/clients/redis.ts:247 | SCAN … MATCH reports exactly the examined keys the pattern matches |
| Cache.ScanStep | src/core/clients/redis.ts:247-249 | one SCAN call returns only keys not yet examined, and at least one while any remain |
| Cache.DelEach | src/core/clients/redis.ts:252-255 | the `for` loop deletes exactly the returned keys and counts one per key |
| Cache.ScriptRound | src/core/clients/redis.ts:247-256 | one SCAN/DEL round moves the batch's matching keys from unexamined to deleted, keeping the count equal to the number deleted |
| Cache.RunDeleteScript | src/core/clients/redis.ts:242-258 | the script ends with exactly the matching keys deleted, every other key kept, and a count equal to the number of matching keys |
| Cache.ReadReply | src/core/clients/redis.ts:168-172 | a read returns a value exactly when the raw result is a non-empty string, and then returns it unchanged |
| Cache.TtlReply | src/core/clients/redis.ts:293-297 | `getTtl` returns null exactly for a TTL of 0; -1 and -2 are returned as they are |
| Cache.SetEffect | src/core/clients/redis.ts:214-220 | a truthy ttl sends PSETEX (a negative one is refused and changes nothing); no ttl or 0 sends plain SET |
| Cache.RedisCache.constructor | src/core/clients/redis.ts:60-61 | both connection slots start null |
| Cache.RedisCache.Init | src/core/clients/redis.ts:82-110 | a fresh writer connection to `REDIS_HOST`, or null exactly when building it throws |
| Cache.RedisCache.ReaderInit | src/core/clients/redis.ts:112-141 | a fresh reader connection to `REDIS_READER_HOST`, or null exactly when building it throws |
| Cache.RedisCache.Close | src/core/clients/redis.ts:143-156 | both slots become null exactly when neither filled slot's quit throws; otherwise both are unchanged |
| Cache.RedisCache.Get | src/core/clients/redis.ts:158-179 | builds a reader only when both slots are empty; returns the non-empty value of `CACHE_key` only when a reader exists and the command succeeds, else null; then closes |
| Cache.RedisCache.GetTtl | src/core/clients/redis.ts:282-304 | the same slot logic as `get`; returns the TTL of `CACHE_key` (null for 0 or any failure); then closes |
| Cache.RedisCache.GetDel | src/core/clients/redis.ts:181-202 | builds the writer when its slot is empty; reads and removes `CACHE_key` when the writer exists and the command succeeds, else returns null and changes nothing; then closes |
| Cache.RedisCache.Set | src/core/clients/redis.ts:204-225 | builds the writer only when its slot is empty, never touches the reader, does not close; the store changes exactly by `SetEffect` on `CACHE_key`, or not at all on failure |
| Cache.RedisCache.Delete | src/core/clients/redis.ts:227-239 | the same slot logic as `set`; removes `CACHE_key` unless the command fails |
| Cache.RedisCache.DeleteByPattern | src/core/clients/redis.ts:241-280 | the same slot logic as `set`; removes exactly the keys matching `CACHE_pattern` unless the command fails; the count is discarded |
| Cache.WritesStayInNamespace | src/core/clients/redis.ts:204-280 | `set`, `delete` and `deleteByPattern`, whatever the key or pattern, leave every key outside `CACHE_` exactly as it was |
| Cache.DeleteByPrefixRemovesExactly | src/core/clients/redis.ts:265-270 | `deleteByPattern(prefix + "*")` for a plain prefix removes exactly the keys that start with `CACHE_` + prefix |
| Cache.TtlReplyCases | src/core/clients/redis.ts:291-297 | `getTtl` gives -2 for a missing key and -1 for one without expiry, and gives null for a live key exactly when it has under 500 ms left |
| Cache.SetThenGetReadsNothing | src/core/clients/redis.ts:160-172 | on a fresh client, once `set` has built its writer, `get` returns null; had building the writer thrown, `get` (if its reader is built and its command succeeds) returns the key's earlier value |
| Cache.SetCloseGetRoundTrip | src/core/clients/redis.ts:143-179 | on a fresh client without faults, `set`, `close`, `get` returns the value set (null for an empty value) unless the ttl is negative |
| Cache.GetDelConsumes | src/core/clients/redis.ts:181-202 | without faults, the first `getdel` returns the stored value exactly when it is non-empty, and removes the key; a second one returns null |
| Glob.LiteralPrefixForced | src/core/clients/redis.ts:265 | a key matched by a pattern that starts with a plain prefix starts with that prefix |
| Glob.StarMatchesAll | src/core/clients/redis.ts:247 | `*` matches every key |
| Glob.LiteralStarMatchesPrefix | src/core/clients/redis.ts:247 | a plain prefix followed by `*` matches exactly the keys that start with the prefix |
| Glob.Matches | src/core/clients/redis.ts:247 | a pattern without special characters matches nothing but itself |
| Glob.ScanMatches | src/core/clients/redis.ts:247 | the pattern `*` admits every key; a pattern without special characters admits exactly the key equal to it |
| Glob.LiteralMatchesItself | src/core/clients/redis.ts:247 | a pattern with no special character matches only itself |
| HttpClient.StatusOr404 | src/core/common/utils/http-client.util.ts:112 | the response's status when there is one, 404 otherwise |
| HttpClient.RetryCondition | src/core/common/utils/http-client.util.ts:86-104 | a retried error always has its config; a configured abort is always retried; any other retried error has a response status |
| HttpClient.RetryConditionIff | src/core/common/utils/http-client.util.ts:86-104 | retried exactly when the config is present and the status (404 when missing) is 408, 429, 500 or 401, or the code is `ECONNABORTED` |
| HttpClient.NonRetryableStatuses | src/core/common/utils/http-client.util.ts:90-103 | without the abort code, a 400, 404 (including a missing status) or 503 is not retried |
| HttpClient.RetryDelay | src/core/common/utils/http-client.util.ts:82-85 | the delay before retry n is exactly n base delays of 1000 ms |
| HttpClient.RetryDelayLinear | src/core/common/utils/http-client.util.ts:82-85 | each retry waits one base delay (1000 ms) longer than the previous one |
| HttpClient.TotalRetryDelayClosedForm | src/core/common/utils/http-client.util.ts:79-85 | the first n retries wait `1000 * n * (n + 1) / 2` ms in total |
| HttpClient.DefaultRetryBudget | src/core/common/utils/http-client.util.ts:15-17 | the default three retries wait 6000 ms in total |
| HttpClient.WithoutAuthorization | src/core/common/utils/http-client.util.ts:129-130 | the copy has no `Authorization` header, keeps every other header, and differs from the error in nothing else |
| HttpClient.Normalise | src/core/common/utils/http-client.util.ts:110-155 | each of the four shapes is chosen exactly when its guard holds and the earlier ones fail; a response's status is kept; without a response the status is 408 exactly for an abort with a message, else 404 |
| HttpClient.RedactionOnlyWithCode | src/core/common/utils/http-client.util.ts:126-153 | the code-and-message shape carries a stack without `Authorization`; the last shape carries the error itself |
| HttpClient.TimeoutRetriedThenReported408 | src/core/common/utils/http-client.util.ts:93-135 | an aborted request with a message and without a response is retried exactly when it has its config, and is reported as 408 |
| HttpClient.FormAppendsEachKeyOnce | src/core/common/utils/http-client.util.ts:58-63 | every body property is appended once, under its own name, a string value as it is |
| HttpClient.PayloadFor | src/core/common/utils/http-client.util.ts:58-71 | a form is sent when `isForm` (empty without a body); otherwise the body is sent unchanged, or no data without one |
| HttpClient.ReplyTo | src/core/common/utils/http-client.util.ts:107-155 | a response is passed on unchanged; every failure becomes a normalised reply, never an exception |
| HttpClient.Client.constructor | src/core/common/utils/http-client.util.ts:38-42 | the timeout is 10000, the delay 1000 and the retry count 3 |
| HttpClient.Client.Fetch | src/core/common/utils/http-client.util.ts:48-156 | the form loop builds exactly the form payload; the request carries the arguments and the fixed timeout; the reply is the transport's outcome, normalised |
| Auth.ApiKeyOf | src/middlewares/auth.middleware.ts:7 | the header's value when it is present; an absent or null header reads as no key |
| Auth.Authorize | src/middlewares/auth.middleware.ts:7-35 | passes exactly when the header is present and equals `API_KEY`; otherwise 403 "FORBIDDEN"/"Error", with "Missing API Key" exactly for an absent or empty header |
| Auth.UnsetKeyRejectsAll | src/middlewares/auth.middleware.ts:9 | with `API_KEY` unset, every request is refused |
| Auth.EmptyHeaderPassesOnlyEmptyKey | src/middlewares/auth.middleware.ts:9-11 | an empty header passes exactly when `API_KEY` is empty, and is otherwise refused as missing |
| Auth.NullHeaderIsMissing | src/middlewares/auth.middleware.ts:7-11 | a null header is refused exactly like an absent one |
| Auth.OnlyTheConfiguredKeyPasses | src/middlewares/auth.middleware.ts:9-10 | any two headers that pass are both the configured key |
| Exceptions.KindOfStatus | src/core/common/exceptions/not-found.exception.ts:19 | inverts the classes' `_code`: a code read back names the class with that code |
| Exceptions.StatusCode | src/core/common/exceptions/not-found.exception.ts:19 | each class's `_code` is a 4xx or 5xx code, and 5xx exactly for the service-unavailable, internal-server and gateway-timeout classes |
| Exceptions.StatusName | src/core/common/exceptions/not-found.exception.ts:20 | each class's `_status` is a non-empty upper-case name |
| Exceptions.DefaultMessage | src/core/common/exceptions/not-found.exception.ts:18 | each class's default message is non-empty and capitalised |
| Exceptions.AppException.Code | src/core/common/exceptions/not-found.exception.ts:32-34 | the `statusCode` getter gives back a code from which the exception's class is recovered |
| Exceptions.AppException.Errors | src/core/common/exceptions/not-found.exception.ts:28-30 | the `errors` getter is a single entry carrying the class's non-empty status name, the message and the context |
| Exceptions.Create | src/core/common/exceptions/not-found.exception.ts:16-22 | the message is never empty, and is the default exactly when none, an empty one, or the default itself was given; logging exactly when `true` was given; an empty context exactly when none or `{}` was given; a given non-empty message and a given context are kept as they are |
| Exceptions.UnprocessableEntityException | src/core/common/exceptions/unprocessable-entity.exception.ts:10-34 | code 422, one entry with status "UNPROCESSABLE_ENTITY", default message "Unprocessable entity"; the other fields are as `Exceptions.Create` states |
| Exceptions.ServiceUnavailableException | src/core/common/exceptions/service-unavailable.exception.ts:10-34 | code 503, status "SERVICE_UNAVAILABLE", default message "Service unvailable" |
| Exceptions.InternalServerException | src/core/common/exceptions/internal-server.exception.ts:10-34 | code 500, status "INTERNAL_SERVER_ERROR", default message "Internal server error" |
| Exceptions.PreConditionException | src/core/common/exceptions/pre-condition.exception.ts:10-34 | code 412, status "PRECONDITION_FAILED", default message "Precondition failed" |
| Exceptions.GatewayTimeoutException | src/core/common/exceptions/gateway-timeout.exception.ts:10-34 | code 504, status "GATEWAY_TIMEOUT", default message "Gateway timeout" |
| Exceptions.RequestTimeoutException | src/core/common/exceptions/request-timeout.exception.ts:10-34 | code 408, status "REQUEST_TIMEOUT", default message "Request timeout" |
| Exceptions.UnauthorizeException | src/core/common/exceptions/unauthorize.exception.ts:10-34 | code 401, status "UNAUTHORIZED", default message "Unauthorized" |
| Exceptions.BadRequestException | src/core/common/exceptions/bad-request.exception.ts:10-34 | code 400, status "BAD_REQUEST", default message "Bad request" |
| Exceptions.NotFoundException | src/core/common/exceptions/not-found.exception.ts:10-34 | code 404, status "NOT_FOUND", default message "Not found" |
| Exceptions.CodeParameterIgnored | src/core/common/exceptions/not-found.exception.ts:10-19 | the `code` argument changes nothing; the status code is always the class's own |
| Exceptions.StatusCodeIdentifiesKind | src/core/common/exceptions/not-found.exception.ts:19 | each class's code is a 4xx or 5xx code, and the class can be read back from it |
| Exceptions.KindsDistinguishable | src/core/common/exceptions/not-found.exception.ts:19-20 | different classes have different codes and different status names |
| Exceptions.RecreateIsIdentity | src/core/common/exceptions/not-found.exception.ts:16-22 | rebuilding an exception from its own message, logging flag and context gives the same exception |
| ErrorHandler.ExceptionDetail | src/middlewares/error-handler.middleware.ts:45-53 | an exception's detail is its context exactly when the context is non-empty, and its stack exactly when it is empty |
| ErrorHandler.Handle | src/middlewares/error-handler.middleware.ts:15-79 | the body's `statusCode` always equals the HTTP status; a validation error is 422 "Error" "Unprocessable Entity" with its issues; an exception gets its class's code and status name; any other error is 500 "INTERNAL_SERVER_ERROR", with its stack only in qa/dev; exceptions and other errors keep their message |
| ErrorHandler.CustomReplyIdentifiesKind | src/middlewares/error-handler.middleware.ts:27-57 | an exception is answered with its class's code and status name, from which the class can be read back |
| ErrorHandler.DetailsOnlyInQaAndDev | src/middlewares/error-handler.middleware.ts:43-75 | an exception or other error carries a detail exactly in qa/dev (for other errors, when a stack exists) |
| ErrorHandler.NoContextExposesStack | src/middlewares/error-handler.middleware.ts:45-61 | an exception built without a context exposes its stack in qa/dev |
| ErrorHandler.ContextExposed | src/middlewares/error-handler.middleware.ts:51-61 | an exception built with a non-empty context exposes that context in qa/dev |
| ErrorHandler.RepliesAreErrorStatuses | src/middlewares/error-handler.middleware.ts:15-79 | every status sent is 422, 500 or one of the nine classes' codes |
| ArrayObjects.EveryObject | src/core/common/utils/is-array-object.util.ts:4 | `every` holds exactly when every element is a non-null object or array |
| ArrayObjects.IsArrayWithObjects | src/core/common/utils/is-array-object.util.ts:1-5 | true exactly for an array whose elements are all non-null objects or arrays |
| ArrayObjects.NonArrayRejected | src/core/common/utils/is-array-object.util.ts:3 | any value other than an array is rejected |
| ArrayObjects.EmptyArrayAccepted | src/core/common/utils/is-array-object.util.ts:3-4 | the empty array is accepted |
| ArrayObjects.PrimitiveElementRejected | src/core/common/utils/is-array-object.util.ts:4 | one null, undefined, boolean, number or string element anywhere makes the array rejected |
| ArrayObjects.ConcatAccepted | src/core/common/utils/is-array-object.util.ts:3-4 | a concatenation is accepted exactly when both parts are |
| ArrayObjects.NestedArraysAccepted | src/core/common/utils/is-array-object.util.ts:4 | an array of arrays is accepted whatever the inner arrays hold |
| UserValidation.FieldIssues | src/data/schema/user-validation.schema.ts:5-16 | a field raises no issue exactly when it is absent and optional, or a string within its bounds (and in email format for `email`) |
| UserValidation.BodyIssues | src/data/schema/user-validation.schema.ts:4-17 | no issue exactly when every field rule holds; every issue's path is `body` followed by a schema field |
| UserValidation.BodyOutput | src/data/schema/user-validation.schema.ts:4-17 | the parsed body keeps exactly the schema fields given as strings, with their values |
| UserValidation.ValidateUser | src/data/schema/user-validation.schema.ts:3-20 | a refusal always carries at least one issue |
| UserValidation.RequiredRulesMeaning | src/data/schema/user-validation.schema.ts:5-7 | username is a string of 1..50, email an email of at most 100, password a string of 8..255 characters |
| UserValidation.NameRulesMeaning | src/data/schema/user-validation.schema.ts:8-11 | first_name, last_name (50), phone_number (20) and address_line1 (100) are optional strings within their bounds |
| UserValidation.AddressRulesMeaning | src/data/schema/user-validation.schema.ts:12-16 | address_line2 (100), city, state_province (50), postal_code (10) and country (50) are optional strings within their bounds |
| UserValidation.RulesAcceptIff | src/data/schema/user-validation.schema.ts:4-17 | the rule table accepts exactly the bodies the schema describes field by field |
| UserValidation.ValidateUserAccepts | src/data/schema/user-validation.schema.ts:3-20 | a request is accepted exactly when it is an object whose `body` is an object meeting every bound |
| UserValidation.AcceptedKeepsRequired | src/data/schema/user-validation.schema.ts:5-7 | an accepted request keeps username, email and password with the given strings, within their bounds |
| UserValidation.UnknownPropertyIgnored | src/data/schema/user-validation.schema.ts:4-17 | a body property outside the schema changes neither the verdict nor the output |
| UserValidation.SameLookupsSameIssues | src/data/schema/user-validation.schema.ts:4-17 | two bodies that agree on every schema field get the same issues and the same output |

## Left out

- The network and the libraries' internals are left out. Connections are tokens, the store is a map, and failures are the `Faults` parameter. ioredis's connection handshake, its reconnect scheduler and its error events are not modelled. Neither is axios's transport or axios-retry's loop that calls the retry predicate and delay.
- Replication is left out. The reader host is taken to be an up-to-date replica of the writer, so both read one store.
- Clocks are left out. Keys never expire by themselves, and TTLs are the remaining milliseconds at the moment of the call.
- Concurrency is left out. Each cache call runs alone; two calls racing on the slots are not modelled.
- Cache.RedisCache.Close: a connection is a token with no open/closed state. When the writer's quit succeeds and the reader's quit then throws, the quit writer stays in its slot, and later `set`, `delete` and `getdel` calls send commands through it; the model lets those commands succeed or fail by the next call's `Faults` instead of failing them for the closed handle.
- The SCAN cursor is modelled as a set of keys not yet examined, each examined once. Real SCAN may report a key twice or miss keys added during the scan, which would change the script's count. That count is only logged.
- ScanStep: the batch a SCAN call returns is idealised. Its size is the store's choice, without the COUNT hint of 10; returning at least one unexamined key per call stands in for the store's guarantee that a full iteration ends.
- Cache.RedisCache.Init: the port from `REDIS_PORT` (a number parse with default 6379) and the connection options are not modelled. Only the host, the role and whether construction throws are.
- Cache.RedisCache.Set: values of type `Buffer` or `number` are taken as the string the store keeps. A ttl is an integer; a fractional ttl (refused by the store) is not modelled.
- Logging (`logger`, `console.error`) is left out everywhere. So are the exception's `logging` flag driving `console.error`, and the timestamp, path and method fields of the replies.
- `HttpClient.get` is left out: it is a bare `axios.get` call with no logic of its own.
- HttpClient.Normalise: the `flatted` serialise-and-parse copies are taken to be faithful copies of the error, request or response. The response's own `config` and `request` are not modelled, so the model does not show that the first branch's message also carries the `Authorization` header unredacted.
- JsValues.ToJsString: numbers are integers only; floating point, `NaN` and `Infinity` are not modelled.
- ArrayObjects.EveryObject: arrays have no holes, so `every` skipping holes is not modelled; the input is parsed JSON, which has none.
- Property order is the order of a `seq` of name/value pairs. A later duplicate name is ignored by lookup.
- UserValidation.ValidateUser: zod's email pattern is the `isEmail` parameter. Lengths count characters, not UTF-16 code units. Zod's issue messages and exact issue fields beyond path and code are not modelled.
- ErrorHandler.Handle: the `CustomError` base class is not part of this model; only the nine classes are. Its `instanceof ZodError` test is modelled as the tag of the error. An exception's stack is a string supplied when it is built.
- Glob matching follows the store's own pattern rules, over strings rather than bytes. The store's guard that gives up on patterns nesting more than 1000 `*` is not modelled; such patterns match as if unguarded.
