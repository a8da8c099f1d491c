/**
  Whole runs of the two components on a fresh thread, as the repository's
  tests drive them, and how the request-scoped fields and logEvent's scoped
  fields interact in one MDC.
 */
module Scenarios {
  import opened Wrappers
  import opened Ambient
  import opened StructuredLogging
  import opened RequestLogging

  /** The request-scoped keys are neither identity keys nor in the `context.` namespace. */
  lemma RequestKeysAreForeign()
    ensures forall key | key in RequestKeys() + {"durationMs", "status"} ::
      key !in IdentityKeys() && !IsContextKey(key)
  {
    assert !IsContextKey("clientIp") by { assert "clientIp"[1] != ContextPrefix[1]; }
    assert !IsContextKey("requestId") by { assert "requestId"[0] != ContextPrefix[0]; }
    assert !IsContextKey("path") by { assert |"path"| < |ContextPrefix|; }
    assert !IsContextKey("method") by { assert |"method"| < |ContextPrefix|; }
    assert !IsContextKey("sessionId") by { assert "sessionId"[0] != ContextPrefix[0]; }
    assert !IsContextKey("durationMs") by { assert "durationMs"[0] != ContextPrefix[0]; }
    assert !IsContextKey("status") by { assert |"status"| < |ContextPrefix|; }
  }

  /**
    A logEvent or logError call made while a request is being handled
    leaves every request-scoped field as it found it, whatever context the
    caller passes.
   */
  lemma RequestFieldsSurviveLogEvent(m: map<string, string>, context: Option<Context>)
    ensures forall key | key in RequestKeys() + {"durationMs", "status"} ::
      (key in Unstamp(m, context) <==> key in m) && (key in m ==> Unstamp(m, context)[key] == m[key])
  {
    RequestKeysAreForeign();
    forall key | key in RequestKeys() + {"durationMs", "status"}
      ensures (key in Unstamp(m, context) <==> key in m) && (key in m ==> Unstamp(m, context)[key] == m[key])
    {
      ForeignKeysSurvive(m, context, key);
    }
  }

  /**
    The last of `records` is an INFO summary that carries request id `id`
    and none of the keys a logEvent call with `context` cleans up (its
    identity fields and its `context.` fields).
   */
  predicate EndsWithSummary(records: seq<Record>, id: string, context: Context) {
    && |records| >= 1
    && var summary := records[|records| - 1];
    && summary.level == INFO
    && "requestId" in summary.mdc && summary.mdc["requestId"] == id
    && summary.mdc.Keys !! CleanupKeys(Some(context))
  }

  /**
    What the summary line sees after a logEvent call inside the request:
    the request id it found and none of the keys the call cleans up,
    whatever was logged before it.
   */
  lemma SummaryAfterScopedCall(logged: seq<Record>, request: HttpRequest, entered: map<string, string>, id: string,
                                context: Context, status: int, duration: int)
    requires "requestId" in entered && entered["requestId"] == id
    ensures EndsWithSummary(logged + [SummaryRecord(request, status, duration, Unstamp(entered, Some(context)))], id, context)
  {
    var during := Unstamp(entered, Some(context));
    var records := logged + [SummaryRecord(request, status, duration, during)];
    var after := records[|records| - 1].mdc;
    RequestFieldsSurviveLogEvent(entered, Some(context));
    RequestKeysAreForeign();
    assert after.Keys == during.Keys + {"durationMs", "status"};
    forall key | key in CleanupKeys(Some(context))
      ensures key !in after
    {
      if key !in IdentityKeys() {
        var k :| k in context && key == ContextKey(k);
        ContextKeyIsContextKey(k);
      }
    }
  }

  /**
    A logEvent call inside the request: its record carries the request id
    it found next to the schema version, and after the call the request id
    is still there while the version is gone.
   */
  lemma RequestFieldSeenByScopedCall(entered: map<string, string>, id: string, service: ServiceInfo, event: string, context: Context)
    requires "requestId" in entered && entered["requestId"] == id
    ensures var s := Stamp(entered, service, event, Some(context));
      && "requestId" in s && s["requestId"] == id
      && "version" in s && s["version"] == LogVersion
    ensures var u := Unstamp(entered, Some(context));
      "requestId" in u && u["requestId"] == id && "version" !in u
  {
    RequestKeysAreForeign();
    assert "requestId" in RequestKeys();
    assert forall key | key in AllContextFields(Some(context)) :: IsContextKey(key);
    StampIdentity(entered, service, event, Some(context));
    StampKeepsOthers(entered, service, event, Some(context));
    UnstampRemoves(entered, Some(context));
  }

  /**
    `r` is the INFO summary line of a request: the method and the URI as
    its first two arguments, then the status and the duration, which parse
    back as numbers; its MDC holds the request id, the client IP and the
    duration.
   */
  predicate SummaryReadsBack(r: Record, httpMethod: string, uri: string, status: int, duration: int,
                             requestId: string, clientIp: string)
  {
    && r.level == INFO && r.message == SummaryFormat
    && |r.args| == 4 && r.args[0] == httpMethod && r.args[1] == uri
    && ParseDecimal(r.args[2]) == status
    && ParseDecimal(r.args[3]) == duration
    && "requestId" in r.mdc && r.mdc["requestId"] == requestId
    && "clientIp" in r.mdc && r.mdc["clientIp"] == clientIp
    && "durationMs" in r.mdc && ParseDecimal(r.mdc["durationMs"]) == duration
  }

  /** The summary over the MDC preHandle left reads back as the request's status and duration. */
  lemma SummaryOfWholeRequest(request: HttpRequest, status: int, duration: int)
    ensures SummaryReadsBack(SummaryRecord(request, status, duration, RequestFields(request)),
                             request.httpMethod, request.requestUri, status, duration,
                             RequestId(request.headers), ClientIp(request.headers, request.remoteAddr))
  {
    DecimalRoundTrip(status);
    DecimalRoundTrip(duration);
  }

  /**
    preHandle and postHandle on a fresh request: the state of a request
    whose handler has run, with the request fields in the MDC and nothing
    logged yet.
   */
  method EnterRequest(headers: map<string, string>, remoteAddr: string, uri: string, httpMethod: string,
                      session: Option<string>, start: int)
    returns (log: Logger, mdc: Mdc, interceptor: RequestLoggingInterceptor, request: HttpRequest)
    ensures fresh(log) && fresh(mdc) && fresh(request)
    ensures interceptor.log == log && log.records == []
    ensures request.headers == headers && request.remoteAddr == remoteAddr
    ensures request.requestUri == uri && request.httpMethod == httpMethod
    ensures StartTime(request.attributes) == Some(start)
    ensures mdc.m == RequestFields(request)
  {
    log := new Logger();
    mdc := new Mdc();
    interceptor := new RequestLoggingInterceptor(log);
    request := new HttpRequest(headers, remoteAddr, uri, httpMethod, session);
    var proceed := interceptor.PreHandle(request, mdc, start);
    interceptor.PostHandle(request, mdc);
  }

  /**
    A whole request: preHandle at `start`, postHandle, afterCompletion at
    `end`. Exactly one INFO summary is logged, carrying the method, the URI,
    the status and a duration that reads back as `end - start`, with the
    request fields in its MDC; the MDC ends empty.
   */
  method RequestLifecycle(headers: map<string, string>, remoteAddr: string, uri: string, httpMethod: string,
                          session: Option<string>, status: int, start: int, end: int)
    returns (records: seq<Record>, finalMdc: map<string, string>)
    ensures |records| == 1
    ensures SummaryReadsBack(records[0], httpMethod, uri, status, end - start, RequestId(headers), ClientIp(headers, remoteAddr))
    ensures finalMdc == map[]
  {
    var log, mdc, interceptor, request := EnterRequest(headers, remoteAddr, uri, httpMethod, session, start);
    ghost var entered := mdc.m;
    var raised := interceptor.AfterCompletion(request, status, mdc, end, false);
    assert log.records == [SummaryRecord(request, status, end - start, entered)];
    SummaryOfWholeRequest(request, status, end - start);
    records := log.records;
    finalMdc := mdc.m;
  }


  /**
    afterCompletion without a preceding preHandle: the unboxing of the
    missing start time raises, nothing is logged, and the MDC is still
    cleared.
   */
  method CompletionWithoutStart(prior: map<string, string>, status: int, now: int)
    returns (raised: bool, records: seq<Record>, finalMdc: map<string, string>)
    ensures raised && records == [] && finalMdc == map[]
  {
    var log := new Logger();
    var mdc := new Mdc();
    mdc.m := prior;
    var interceptor := new RequestLoggingInterceptor(log);
    var request := new HttpRequest(map[], "127.0.0.1", "/api/test", "GET", None);
    raised := interceptor.AfterCompletion(request, status, mdc, now, false);
    records := log.records;
    finalMdc := mdc.m;
  }

  /**
    preHandle on a request without headers or session: the method and path
    are copied, the session id is "none", the request id falls back to
    "unknown" and the client IP to the remote address.
   */
  method PreHandleDefaults(now: int) returns (fields: map<string, string>)
    ensures "method" in fields && fields["method"] == "GET"
    ensures "path" in fields && fields["path"] == "/api/test"
    ensures "sessionId" in fields && fields["sessionId"] == "none"
    ensures "requestId" in fields && fields["requestId"] == "unknown"
    ensures "clientIp" in fields && fields["clientIp"] == "127.0.0.1"
  {
    var mdc := new Mdc();
    var log := new Logger();
    var interceptor := new RequestLoggingInterceptor(log);
    var request := new HttpRequest(map[], "127.0.0.1", "/api/test", "GET", None);
    var proceed := interceptor.PreHandle(request, mdc, now);
    fields := mdc.m;
  }

  /** preHandle takes the request id from `X-Request-ID`. */
  method PreHandleRequestIdFromHeader(now: int) returns (fields: map<string, string>)
    ensures "requestId" in fields && fields["requestId"] == "test-request-id"
  {
    var mdc := new Mdc();
    var log := new Logger();
    var interceptor := new RequestLoggingInterceptor(log);
    var request := new HttpRequest(map["X-Request-ID" := "test-request-id"], "127.0.0.1", "/api/test", "GET", None);
    var proceed := interceptor.PreHandle(request, mdc, now);
    fields := mdc.m;
  }

  /** getClientIp prefers `X-Forwarded-For` over the remote address. */
  lemma ClientIpPrefersForwardedFor()
    ensures ClientIp(map["X-Forwarded-For" := "1.2.3.4"], "5.6.7.8") == "1.2.3.4"
  {
    assert !EqualsIgnoreCase("unknown", "1.2.3.4") by {
      assert Lower("unknown"[0]) != Lower("1.2.3.4"[0]);
    }
  }

  /** A logEvent call on an empty MDC leaves it empty, whatever its context. */
  lemma CleanupOfEmpty(context: Option<Context>)
    ensures Unstamp(map[], context) == map[]
  {
    assert Unstamp(map[], context).Keys == {};
  }

  /** The context of the login event. */
  function LoginContext(): Context {
    map["user_id" := Some("12345"), "action" := Some("login")]
  }

  /** The login event's schema version, event name, service identity and both context entries are in `s`. */
  predicate LoginFields(s: map<string, string>, hostName: string) {
    && "version" in s && s["version"] == LogVersion
    && "event" in s && s["event"] == "user_event"
    && "service.name" in s && s["service.name"] == "test-service"
    && "service.version" in s && s["service.version"] == "1.0.0"
    && "service.hostName" in s && s["service.hostName"] == hostName
    && ContextKey("user_id") in s && s[ContextKey("user_id")] == "12345"
    && ContextKey("action") in s && s[ContextKey("action")] == "login"
  }

  /** What the login event's log call sees: its identity fields and both context entries. */
  lemma LoginStamp(service: ServiceInfo)
    requires service.name == "test-service" && service.version == "1.0.0"
    ensures LoginFields(Stamp(map[], service, "user_event", Some(LoginContext())), service.hostName)
  {
    var context := LoginContext();
    assert context["user_id"] == Some("12345") && context["action"] == Some("login");
    StampIdentity(map[], service, "user_event", Some(context));
    StampContext(map[], service, "user_event", Some(context));
  }

  /** The context of the failed data sync. */
  function SyncContext(): Context {
    map["operation" := Some("data_sync")]
  }

  /** The runtime exception of the failed data sync. */
  function SyncException(frames: seq<string>): Throwable {
    Throwable(Some("Test exception"), "java.lang.RuntimeException", frames)
  }

  /** The failed data sync's event name, the caller's entry and the exception's fields are in `s`. */
  predicate SyncFailureFields(s: map<string, string>, frames: seq<string>) {
    && "event" in s && s["event"] == "system_error"
    && ContextKey("operation") in s && s[ContextKey("operation")] == "data_sync"
    && ContextKey("error.message") in s && s[ContextKey("error.message")] == "Test exception"
    && ContextKey("error.type") in s && s[ContextKey("error.type")] == "java.lang.RuntimeException"
    && ContextKey("error.stack_trace") in s && s[ContextKey("error.stack_trace")] == StackTrace(frames)
  }

  /** What the failed data sync's log call sees: its event, the caller's entry and the exception's fields. */
  lemma SyncFailureStamp(service: ServiceInfo, frames: seq<string>)
    ensures SyncFailureFields(Stamp(map[], service, "system_error", Some(ErrorData(Some(SyncContext()), Some(SyncException(frames))))), frames)
  {
    var context := SyncContext();
    var e := SyncException(frames);
    assert "operation" in context && context["operation"] == Some("data_sync");
    assert "operation" !in ErrorKeys() by { assert |"operation"| == 9; }
    ErrorFieldsReachRecord(map[], service, "system_error", Some(context), e);
    StampIdentity(map[], service, "system_error", Some(ErrorData(Some(context), Some(e))));
  }

  /**
    logEvent at INFO with two context entries: one record, at INFO, with
    the message, the schema version, the event, the service identity (the
    looked-up host name, or "unknown" when the lookup failed) and both
    entries under `context.`; the MDC is empty again afterwards.
   */
  method LogEventAtInfo(hostLookup: Option<string>) returns (records: seq<Record>, finalMdc: map<string, string>)
    ensures |records| == 1 && records[0].level == INFO && records[0].message == "User logged in"
    ensures LoginFields(records[0].mdc, hostLookup.GetOr(Unknown))
    ensures finalMdc == map[]
  {
    var logger := new Logger();
    var mdc := new Mdc();
    var utils := new LoggingUtils("test-service", "1.0.0", hostLookup);
    var context := LoginContext();
    LoginStamp(utils.service);
    CleanupOfEmpty(Some(context));
    var raised := utils.LogEvent(logger, mdc, INFO, "user_event", "User logged in", Some(context), false);
    records := logger.records;
    finalMdc := mdc.m;
  }

  /**
    logError with a runtime exception: one record, at ERROR, with the
    message, the caller's entry and the exception's message, class name
    and stack trace under `context.`; the MDC is empty again afterwards.
   */
  method LogErrorWithException(hostLookup: Option<string>, frames: seq<string>)
    returns (records: seq<Record>, finalMdc: map<string, string>)
    ensures |records| == 1 && records[0].level == ERROR && records[0].message == "Operation failed"
    ensures SyncFailureFields(records[0].mdc, frames)
    ensures finalMdc == map[]
  {
    var logger := new Logger();
    var mdc := new Mdc();
    var utils := new LoggingUtils("test-service", "1.0.0", hostLookup);
    var context := SyncContext();
    var e := SyncException(frames);
    SyncFailureStamp(utils.service, frames);
    CleanupOfEmpty(Some(ErrorData(Some(context), Some(e))));
    var raised := utils.LogError(logger, mdc, "system_error", "Operation failed", Some(e), Some(context), false);
    records := logger.records;
    finalMdc := mdc.m;
  }

  /**
    A logEvent call after preHandle: its record carries the request id
    beside its own identity fields, and the request fields outlive it.
   */
  method LogEventSeesRequestFields(utils: LoggingUtils, headers: map<string, string>, remoteAddr: string, uri: string,
                                   httpMethod: string, session: Option<string>, start: int, level: Level, event: string, message: string,
                                   context: Context)
    returns (records: seq<Record>, afterMdc: map<string, string>)
    ensures |records| == 1
    ensures "requestId" in records[0].mdc && records[0].mdc["requestId"] == RequestId(headers)
    ensures "version" in records[0].mdc && records[0].mdc["version"] == LogVersion
    ensures "requestId" in afterMdc && afterMdc["requestId"] == RequestId(headers)
    ensures "version" !in afterMdc
  {
    var log := new Logger();
    var mdc := new Mdc();
    var interceptor := new RequestLoggingInterceptor(log);
    var request := new HttpRequest(headers, remoteAddr, uri, httpMethod, session);
    var proceed := interceptor.PreHandle(request, mdc, start);
    ghost var entered := mdc.m;
    assert "requestId" in entered && entered["requestId"] == RequestId(headers);
    RequestFieldSeenByScopedCall(entered, RequestId(headers), utils.service, event, context);
    var raised := utils.LogEvent(log, mdc, level, event, message, Some(context), false);
    records := log.records;
    afterMdc := mdc.m;
  }

  /**
    preHandle on a fresh request, then one logEvent call: the state of a
    request half-way through. `entered` is the MDC the call found.
   */
  method EnterAndLog(utils: LoggingUtils, headers: map<string, string>, remoteAddr: string, uri: string,
                     httpMethod: string, session: Option<string>, start: int, level: Level, event: string,
                     message: string, context: Context, logFails: bool)
    returns (log: Logger, mdc: Mdc, interceptor: RequestLoggingInterceptor, request: HttpRequest,
             ghost entered: map<string, string>)
    ensures fresh(log) && fresh(mdc) && fresh(request)
    ensures interceptor.log == log && request.headers == headers
    ensures StartTime(request.attributes) == Some(start)
    ensures "requestId" in entered && entered["requestId"] == RequestId(headers)
    ensures mdc.m == Unstamp(entered, Some(context))
    ensures |log.records| == (if logFails then 0 else 1)
  {
    log := new Logger();
    mdc := new Mdc();
    interceptor := new RequestLoggingInterceptor(log);
    request := new HttpRequest(headers, remoteAddr, uri, httpMethod, session);
    var proceed := interceptor.PreHandle(request, mdc, start);
    entered := mdc.m;
    var raised := utils.LogEvent(log, mdc, level, event, message, Some(context), logFails);
  }

  /**
    A logEvent call in the middle of a request: the summary record that
    follows carries the request fields but none of logEvent's; the MDC
    ends empty.
   */
  method LogEventWithinRequest(utils: LoggingUtils, headers: map<string, string>, remoteAddr: string, uri: string,
                               httpMethod: string, session: Option<string>, start: int, end: int, status: int,
                               level: Level, event: string, message: string, context: Context, logFails: bool)
    returns (records: seq<Record>, finalMdc: map<string, string>)
    ensures |records| == (if logFails then 1 else 2)
    ensures EndsWithSummary(records, RequestId(headers), context)
    ensures finalMdc == map[]
  {
    var log, mdc, interceptor, request, entered :=
      EnterAndLog(utils, headers, remoteAddr, uri, httpMethod, session, start, level, event, message, context, logFails);
    ghost var logged := log.records;
    var raised := interceptor.AfterCompletion(request, status, mdc, end, false);
    SummaryAfterScopedCall(logged, request, entered, RequestId(headers), context, status, end - start);
    records := log.records;
    finalMdc := mdc.m;
  }



}
