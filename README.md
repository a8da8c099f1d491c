# Structured request logging, modelled in Dafny

This project models the core of a small Java library for structured logging
in Spring services. It has two components that share one piece of ambient
state, the SLF4J mapped diagnostic context (MDC) of the current thread:

- **LoggingUtils** does scoped structured logging. `logEvent` writes five
  identity fields into the MDC: `version`, `event`, `service.name`,
  `service.version` and `service.hostName`. It also writes every non-null
  caller context entry `k` under `context.k`. Then it makes one log call at
  the requested level. In a `finally` block it removes `context.k` for every
  context key, null-valued or not, and then the five identity keys.
  `logError` copies the caller's context and adds `error.message`,
  `error.type` and `error.stack_trace` for an exception. It then delegates to
  `logEvent` at ERROR.
- **RequestLoggingInterceptor** works at the request boundary. `preHandle`
  stamps the start time on the request and writes five request fields into
  the MDC: `clientIp`, `requestId`, `path`, `method` and `sessionId`.
  `afterCompletion` writes `durationMs` and `status` and logs one INFO
  summary line. In a `finally` block it clears the whole MDC. `getClientIp`
  and `getRequestId` resolve header precedence chains.

The Dafny modules follow the program's structure:

- `Wrappers` (wrappers.dfy) holds `Option`.
- `Ambient` (ambient.dfy) holds the MDC as class `Mdc` over a
  `map<string, string>` that its methods reassign. It also holds the SLF4J
  logger as class `Logger`, whose `records` list each log call with a
  snapshot of the MDC at that moment. A log call whose transport throws is a
  `throws` parameter: it leaves no record and is reported back as `raised`.
- `StructuredLogging` (structured_logging.dfy) models LoggingUtils.java. The
  specification functions are `Stamp` and `Unstamp`:
  - `Stamp` is the MDC the log call sees.
  - `Unstamp` is the MDC left after the call.
  - `LogEvent` is proved against both, on the success path and on the
    throwing path. The lemmas state what the two functions mean.
- `RequestLogging` (request_logging.dfy) models RequestLoggingInterceptor.java.
  The request is class `HttpRequest`, whose mutable `attributes` map carries
  the start time. The clock is the `now` parameter.
- `Scenarios` (scenarios.dfy) composes the two components. It proves what a
  whole request logs, and what a logEvent call inside a request does to the
  request fields. It also restates the repository's unit tests as verified
  methods over fresh objects.

In three places the code does something other than what one might expect
of it, and the model follows the code:

- One might expect an unknown severity to be rejected before the MDC is
  touched. In the code a `null` level makes the `switch` throw after the
  identity and context fields are written, and the `finally` cleanup still
  runs. The model's `Level` is a closed datatype. The throwing path is the
  same one a throwing sink takes, which is modelled.
- One might expect a missing start time to yield a sentinel duration. In the
  code the unboxing cast of a missing (or non-`Long`) attribute throws:
  nothing is logged and the MDC is still cleared. `AfterCompletion` models
  exactly that (`raised`, no record, empty MDC).
- One might expect the request id to fall back to `"unknown"` whenever the
  headers give no usable value. In the code a present but empty
  `Request-ID` header is returned as the empty string. `RequestId` and
  `RequestIdEmptyIff` state the code's behaviour.

## Model

| member | source | states |
|---|---|---|
| `StructuredLogging.ContextKeyInjective` | src/main/java/com/thrivemarket/logging/config/LoggingUtils.java:60 | distinct context keys give distinct `context.`-prefixed MDC keys, so no two entries of one context overwrite each other |
| `StructuredLogging.IdentityFields` | src/main/java/com/thrivemarket/logging/config/LoggingUtils.java:47-53 | the identity writes cover exactly the five identity keys |
| `StructuredLogging.ContextFields` | src/main/java/com/thrivemarket/logging/config/LoggingUtils.java:57-63 | `context.k` is written exactly for the named keys whose value is non-null, with that value, and nothing outside the `context.` namespace is written |
| `StructuredLogging.StampIdentity` | src/main/java/com/thrivemarket/logging/config/LoggingUtils.java:47-53 | the log call sees the schema version "1", the event, and the service name, version and host name, whatever the prior MDC and the context hold |
| `StructuredLogging.StampContext` | src/main/java/com/thrivemarket/logging/config/LoggingUtils.java:57-63 | the log call sees `context.k` with its value for every non-null context entry |
| `StructuredLogging.StampKeepsOthers` | src/main/java/com/thrivemarket/logging/config/LoggingUtils.java:43-63 | every other key reaches the log call in its prior state, present with the same value or absent |
| `StructuredLogging.UnstampRemoves` | src/main/java/com/thrivemarket/logging/config/LoggingUtils.java:80-92 | after the call the identity keys and `context.k` for every context key (null-valued ones too) are absent; every other key keeps its prior state |
| `StructuredLogging.ContextFieldsAreCleaned` | src/main/java/com/thrivemarket/logging/config/LoggingUtils.java:57-86 | every key the stamping loop writes is among the keys the cleanup loop removes |
| `StructuredLogging.UnstampUndoesStamp` | src/main/java/com/thrivemarket/logging/config/LoggingUtils.java:43-93 | cleaning up after the stamp gives what cleaning up the prior MDC gives: whatever was written is removed, nothing else is touched |
| `StructuredLogging.UnstampRestoresIff` | src/main/java/com/thrivemarket/logging/config/LoggingUtils.java:80-92 | the MDC is restored exactly iff the prior MDC held none of the cleanup keys; otherwise a prior value under such a key is lost |
| `StructuredLogging.ForeignKeysSurvive` | src/main/java/com/thrivemarket/logging/config/LoggingUtils.java:80-92 | a key that is neither an identity key nor in the `context.` namespace survives the call with its value (the "trace IDs left intact" promise) |
| `StructuredLogging.StackTrace` | src/main/java/com/thrivemarket/logging/config/LoggingUtils.java:122-126 | the trace is at least as long as the frame list, is empty exactly when there are no frames, and otherwise ends in a newline |
| `StructuredLogging.StackTraceAppend` | src/main/java/com/thrivemarket/logging/config/LoggingUtils.java:122-126 | appending a frame appends that frame and a newline to the trace |
| `StructuredLogging.LinesOfStackTrace` | src/main/java/com/thrivemarket/logging/config/LoggingUtils.java:122-126 | when no frame contains a newline, splitting the trace into lines gives back the frames |
| `StructuredLogging.BuildStackTrace` | src/main/java/com/thrivemarket/logging/config/LoggingUtils.java:122-126 | the StringBuilder loop produces `StackTrace(frames)` |
| `StructuredLogging.ErrorData` | src/main/java/com/thrivemarket/logging/config/LoggingUtils.java:111-127 | with no exception the error context is the caller's context (empty for null); with one it adds exactly the three error keys: the message (possibly null), the class name and the stack trace, overriding caller entries of those names and keeping every other caller entry |
| `StructuredLogging.ErrorFieldsReachRecord` | src/main/java/com/thrivemarket/logging/config/LoggingUtils.java:104-131 | the ERROR record carries the exception's type, stack trace and non-null message under `context.error.*` and every other non-null caller entry; afterwards none of the error keys is left |
| `StructuredLogging.PutContext` | src/main/java/com/thrivemarket/logging/config/LoggingUtils.java:57-63 | the stamping loop overlays the prior MDC with exactly the context fields |
| `StructuredLogging.RemoveContext` | src/main/java/com/thrivemarket/logging/config/LoggingUtils.java:82-86 | the cleanup loop removes `context.k` for every context key and nothing else |
| `StructuredLogging.LoggingUtils.constructor` | src/main/java/com/thrivemarket/logging/config/LoggingUtils.java:16-32 | the service identity is the configured name and version, and the host name is the one the start-up lookup produced, or "unknown" when the lookup failed |
| `StructuredLogging.LoggingUtils.LogEvent` | src/main/java/com/thrivemarket/logging/config/LoggingUtils.java:43-93 | one record at the requested level, with the message and the stamped MDC, unless the sink throws; on both paths the MDC ends as `Unstamp` of the prior MDC and the exception is reported |
| `StructuredLogging.LoggingUtils.LogError` | src/main/java/com/thrivemarket/logging/config/LoggingUtils.java:104-131 | behaves as LogEvent at ERROR with the derived error context |
| `RequestLogging.ClientIp` | src/main/java/com/thrivemarket/logging/config/RequestLoggingInterceptor.java:80-89 | `X-Forwarded-For` when accepted, else `X-Real-IP` when accepted, else the remote address; a value is rejected when null, empty or "unknown" in any case |
| `RequestLogging.ClientIpIsFirstAccepted` | src/main/java/com/thrivemarket/logging/config/RequestLoggingInterceptor.java:80-89 | getClientIp equals an independent first-accepted-candidate definition over the two headers with the remote address as fallback |
| `RequestLogging.ClientIpNeverRejectedHeader` | src/main/java/com/thrivemarket/logging/config/RequestLoggingInterceptor.java:80-89 | the result is the remote address or an accepted value of one of the two headers |
| `RequestLogging.ClientIpSkipsUnknownInAnyCase` | src/main/java/com/thrivemarket/logging/config/RequestLoggingInterceptor.java:82 | an "UNKNOWN" forwarded-for header falls through to `X-Real-IP` |
| `RequestLogging.RequestId` | src/main/java/com/thrivemarket/logging/config/RequestLoggingInterceptor.java:91-101 | `X-Request-ID` when non-empty, else `X-Correlation-ID` when non-empty, else `Request-ID` as it is, and "unknown" only when that header is absent |
| `RequestLogging.RequestIdEmptyIff` | src/main/java/com/thrivemarket/logging/config/RequestLoggingInterceptor.java:91-101 | the request id is empty exactly when the first two headers are missing and `Request-ID` is present but empty |
| `RequestLogging.RequestIdSentinelIff` | src/main/java/com/thrivemarket/logging/config/RequestLoggingInterceptor.java:100 | when no header literally says "unknown", the id is "unknown" exactly when the first two headers are missing and `Request-ID` is absent |
| `RequestLogging.Decimal` | src/main/java/com/thrivemarket/logging/config/RequestLoggingInterceptor.java:64-65 | `String.valueOf` of a number is non-empty and starts with '-' exactly for negative numbers |
| `RequestLogging.DecimalRoundTrip` | src/main/java/com/thrivemarket/logging/config/RequestLoggingInterceptor.java:64-65 | the rendered duration and status read back as the numbers |
| `RequestLogging.RequestFields` | src/main/java/com/thrivemarket/logging/config/RequestLoggingInterceptor.java:27-43 | the five request keys, with the resolved client IP and request id, and "none" as session id exactly when there is no session or its id is "none" |
| `RequestLogging.RequestLoggingInterceptor.PreHandle` | src/main/java/com/thrivemarket/logging/config/RequestLoggingInterceptor.java:22-46 | the request proceeds; the start time replaces any earlier one and the other attributes are kept; the MDC is the prior one overlaid with the request fields |
| `RequestLogging.RequestLoggingInterceptor.PostHandle` | src/main/java/com/thrivemarket/logging/config/RequestLoggingInterceptor.java:49-55 | changes nothing |
| `RequestLogging.RequestLoggingInterceptor.AfterCompletion` | src/main/java/com/thrivemarket/logging/config/RequestLoggingInterceptor.java:58-78 | without a `Long` start time it raises and logs nothing; otherwise it logs one INFO summary with method, URI, status and duration over the MDC plus `durationMs` and `status`, unless the sink throws; in every case the MDC ends empty |
| `Scenarios.RequestKeysAreForeign` | src/main/java/com/thrivemarket/logging/config/RequestLoggingInterceptor.java:27-65 | the request-scoped keys are neither identity keys nor in the `context.` namespace |
| `Scenarios.RequestFieldsSurviveLogEvent` | src/main/java/com/thrivemarket/logging/config/LoggingUtils.java:80-92 | a logEvent or logError inside a request leaves every request field as it found it, whatever the caller's context |
| `Scenarios.RequestFieldSeenByScopedCall` | src/main/java/com/thrivemarket/logging/config/LoggingUtils.java:43-93 | given the request id in the MDC a logEvent call finds, its record carries that id and the schema version, and after the call the id is still there and `version` is gone |
| `Scenarios.SummaryAfterScopedCall` | src/main/java/com/thrivemarket/logging/config/RequestLoggingInterceptor.java:58-78 | whatever was logged before, the last record is an INFO summary that carries the request id the logEvent call found and none of the keys the call cleans up (its identity keys and its `context.` keys) |
| `Scenarios.SummaryOfWholeRequest` | src/main/java/com/thrivemarket/logging/config/RequestLoggingInterceptor.java:62-73 | the summary over the MDC preHandle left is INFO with the method and URI as its first arguments, its status and duration arguments and `durationMs` parse back as the numbers, and its MDC holds the request id and client IP |
| `Scenarios.RequestLifecycle` | src/main/java/com/thrivemarket/logging/config/RequestLoggingInterceptor.java:22-78 | a whole request logs one INFO summary whose status and duration arguments read back as the status and `end - start`, with the request id, client IP and duration in its MDC; the MDC ends empty |
| `Scenarios.CompletionWithoutStart` | src/main/java/com/thrivemarket/logging/config/RequestLoggingInterceptor.java:60-77 | afterCompletion without preHandle raises, logs nothing and still clears the MDC |
| `Scenarios.PreHandleDefaults` | src/test/java/com/thrivemarket/logging/config/RequestLoggingInterceptorTest.java:48-59 | with no headers or session: method and path copied, session id "none", request id "unknown", client IP the remote address |
| `Scenarios.PreHandleRequestIdFromHeader` | src/test/java/com/thrivemarket/logging/config/RequestLoggingInterceptorTest.java:61-71 | the request id comes from `X-Request-ID` |
| `Scenarios.ClientIpPrefersForwardedFor` | src/test/java/com/thrivemarket/logging/config/RequestLoggingInterceptorTest.java:87-96 | `X-Forwarded-For` wins over the remote address |
| `Scenarios.CleanupOfEmpty` | src/main/java/com/thrivemarket/logging/config/LoggingUtils.java:80-92 | a logEvent call on an empty MDC leaves it empty, whatever its context |
| `Scenarios.LoginStamp` | src/test/java/com/thrivemarket/logging/config/LoggingUtilsTest.java:37-50 | the login event's log call sees the schema version, its event name, the service name, version and host name, and both context entries under `context.` |
| `Scenarios.SyncFailureStamp` | src/test/java/com/thrivemarket/logging/config/LoggingUtilsTest.java:52-66 | the failed data sync's log call sees its event name, the caller's `operation` entry and the exception's message, type and stack trace under `context.` |
| `Scenarios.LogEventAtInfo` | src/test/java/com/thrivemarket/logging/config/LoggingUtilsTest.java:37-50 | one INFO record with the message, the schema version "1", the event, the service name, version and host name (the looked-up name, or "unknown" when the lookup failed) and both context entries under `context.`; the MDC ends empty |
| `Scenarios.LogErrorWithException` | src/test/java/com/thrivemarket/logging/config/LoggingUtilsTest.java:52-66 | one ERROR record with the caller's entry and the exception's message, type and stack trace under `context.`; the MDC ends empty |
| `Scenarios.LogEventSeesRequestFields` | src/main/java/com/thrivemarket/logging/config/LoggingUtils.java:43-93 | for any request and any logEvent call after preHandle, the one record carries the request id and the schema version; afterwards the request id is still there and `version` is gone |
| `Scenarios.LogEventWithinRequest` | src/main/java/com/thrivemarket/logging/config/RequestLoggingInterceptor.java:58-78 | for any request and any logEvent call inside it, the final summary is INFO and carries the request id but none of the keys that call cleans up, whether or not the call's sink threw; the MDC ends empty |

## Left out

- The host name lookup at class load (`InetAddress.getLocalHost()`) is I/O. Its outcome is a constructor parameter (`None` when it fails, which gives "unknown"). The model looks it up once per object rather than once per class.
- The `@Value` injection of the service name and version (defaults "unknown" and "0.0.1") is Spring configuration. Both are constructor parameters.
- The MDC is thread-local. Concurrency and isolation between threads are not modelled; one `Mdc` object stands for one thread's MDC.
- SLF4J rendering, appenders and transport are not modelled. A log call is a record of level, format, rendered arguments and an MDC snapshot. A transport failure is the `throws` parameter.
- `System.currentTimeMillis()` is the `now` parameter, and `response.getStatus()` is the `status` parameter.
- RequestLogging.RequestLoggingInterceptor.AfterCompletion: the duration is an unbounded integer. The 64-bit `long` wrap-around of `now - startTime` is not modelled, since wall-clock millisecond differences stay far from that bound.
- `equalsIgnoreCase` folds ASCII letters only. Java's Unicode case folding also matches "unknown" against spellings such as one with a Kelvin sign; those are not modelled.
- Servlet header names are case-insensitive; the model looks headers up by exact name.
- A `null` context key (written by Java as `context.null`) is not modelled; context keys are strings.
- A `null` level makes the Java `switch` throw after the MDC writes. The model's `Level` cannot be null; the same throw-then-clean-up path is modelled through the throwing sink.
- A `null` event, service name, service version or stack-frame text is not modelled; these are strings.
- Context values are taken as already rendered with `toString()`. A `toString()` that throws is not modelled.
- The `response`, `handler`, `ex` and `modelAndView` parameters are not used by the source, apart from the status, and are not modelled.
- `logError` copies the caller's map with `putAll`. The model's context is a value, so the caller's map is visibly never changed.
- The other files of the library (auto-configuration, the MVC configurer and the example class) are not part of this model.
