/**
  Scoped structured logging (LoggingUtils.java): stamp the service identity
  and the caller's context into the MDC, make one log call, and remove what
  was stamped again, whatever the log call did.
 */
module StructuredLogging {
  import opened Wrappers
  import opened Ambient

  /** Version of the log schema, written under `version`. */
  const LogVersion: string := "1"

  /** The host-name sentinel used when the host name cannot be resolved. */
  const Unknown: string := "unknown"

  /** Prefix under which the caller's context entries are written. */
  const ContextPrefix: string := "context."

  /**
    A caller's `Map<String, Object>` context: each value is already rendered
    with `toString()`, and `None` stands for a `null` value.
   */
  type Context = map<string, Option<string>>

  /**
    A `Throwable` as LoggingUtils reads it: `getMessage()` (possibly null),
    `getClass().getName()`, and the `toString()` of each stack frame.
   */
  datatype Throwable = Throwable(message: Option<string>, className: string, frames: seq<string>)

  // ---------------------------------------------------------------------
  // Keys

  /** The five identity keys every logEvent writes and removes. */
  function IdentityKeys(): set<string> {
    {"version", "event", "service.name", "service.version", "service.hostName"}
  }

  /** The MDC key of context entry `k`. */
  function ContextKey(k: string): string {
    ContextPrefix + k
  }

  /** Whether `key` lies in the `context.` namespace. */
  predicate IsContextKey(key: string) {
    |key| >= |ContextPrefix| && key[..|ContextPrefix|] == ContextPrefix
  }

  lemma ContextKeyIsContextKey(k: string)
    ensures IsContextKey(ContextKey(k)) && ContextKey(k)[|ContextPrefix|..] == k
  {
    assert ContextKey(k)[..|ContextPrefix|] == ContextPrefix;
  }

  /** Every key of the `context.` namespace is the key of the entry named by its suffix. */
  lemma StripContextKey(key: string)
    requires IsContextKey(key)
    ensures ContextKey(key[|ContextPrefix|..]) == key
  {
    assert key == key[..|ContextPrefix|] + key[|ContextPrefix|..];
  }

  /** Distinct context entries never share an MDC key. */
  lemma ContextKeyInjective()
    ensures forall k1, k2 :: ContextKey(k1) == ContextKey(k2) ==> k1 == k2
  {
    forall k1, k2 | ContextKey(k1) == ContextKey(k2)
      ensures k1 == k2
    {
      ContextKeyIsContextKey(k1);
      ContextKeyIsContextKey(k2);
    }
  }

  /** A key outside the `context.` namespace is no context entry's key. */
  lemma NotContextKey(key: string)
    requires !IsContextKey(key)
    ensures forall k :: ContextKey(k) != key
  {
    forall k
      ensures ContextKey(k) != key
    {
      ContextKeyIsContextKey(k);
    }
  }

  /** None of the identity keys is in the `context.` namespace. */
  lemma IdentityKeysAreNotContextKeys()
    ensures forall key | key in IdentityKeys() :: !IsContextKey(key)
    ensures forall k :: ContextKey(k) !in IdentityKeys()
  {
    assert !IsContextKey("version") by { assert "version"[1] != ContextPrefix[1]; }
    assert !IsContextKey("event") by { assert |"event"| < |ContextPrefix|; }
    assert !IsContextKey("service.name") by { assert "service.name"[0] != ContextPrefix[0]; }
    assert !IsContextKey("service.version") by { assert "service.version"[0] != ContextPrefix[0]; }
    assert !IsContextKey("service.hostName") by { assert "service.hostName"[0] != ContextPrefix[0]; }
    forall k
      ensures ContextKey(k) !in IdentityKeys()
    {
      ContextKeyIsContextKey(k);
    }
  }

  /** The MDC keys of the context entries named in `keys`. */
  function ContextKeySet(keys: set<string>): set<string> {
    set k | k in keys :: ContextKey(k)
  }

  /**
    The keys a logEvent call with `context` removes in its cleanup: the
    identity keys and `context.k` for every key of the context, including
    the keys whose value is null.
   */
  function CleanupKeys(context: Option<Context>): set<string> {
    IdentityKeys() + ContextKeysOf(context)
  }

  /** `context.k` for every key `k` of an optional context. */
  function ContextKeysOf(context: Option<Context>): set<string> {
    if context.Some? then ContextKeySet(context.value.Keys) else {}
  }

  // ---------------------------------------------------------------------
  // What logEvent writes

  /** The configured identity of the service (injected name and version, host name). */
  datatype ServiceInfo = ServiceInfo(name: string, version: string, hostName: string)

  /** The five identity fields for one event. */
  function IdentityFields(service: ServiceInfo, event: string): (r: map<string, string>)
    ensures r.Keys == IdentityKeys()
    ensures r["version"] == LogVersion && r["event"] == event
    ensures r["service.name"] == service.name && r["service.version"] == service.version
    ensures r["service.hostName"] == service.hostName
  {
    map["version" := LogVersion,
        "event" := event,
        "service.name" := service.name,
        "service.version" := service.version,
        "service.hostName" := service.hostName]
  }

  /** The MDC fields written for the entries of `context` named in `keys` with non-null values. */
  function ContextFields(context: Context, keys: set<string>): (r: map<string, string>)
    ensures forall k :: ContextKey(k) in r <==> k in keys && k in context && context[k].Some?
    ensures forall k | ContextKey(k) in r :: r[ContextKey(k)] == context[k].value
    ensures forall key | key in r :: IsContextKey(key)
  {
    ContextKeyInjective();
    var r := map k | k in keys && k in context && context[k].Some? :: ContextKey(k) := context[k].value;
    assert forall key | key in r :: IsContextKey(key) by {
      forall key | key in r
        ensures IsContextKey(key)
      {
        var k :| k in keys && k in context && context[k].Some? && key == ContextKey(k);
        ContextKeyIsContextKey(k);
      }
    }
    r
  }

  /** The MDC fields written for all non-null entries of an optional context. */
  function AllContextFields(context: Option<Context>): map<string, string> {
    if context.Some? then ContextFields(context.value, context.value.Keys) else map[]
  }

  /** The MDC as the log call sees it: the prior MDC `m` overlaid with the identity fields and the context fields. */
  function Stamp(m: map<string, string>, service: ServiceInfo, event: string, context: Option<Context>): map<string, string> {
    m + IdentityFields(service, event) + AllContextFields(context)
  }

  /** The log call sees the five identity fields, whatever the prior MDC and the context hold. */
  lemma StampIdentity(m: map<string, string>, service: ServiceInfo, event: string, context: Option<Context>)
    ensures var r := Stamp(m, service, event, context);
      && "version" in r && r["version"] == LogVersion
      && "event" in r && r["event"] == event
      && "service.name" in r && r["service.name"] == service.name
      && "service.version" in r && r["service.version"] == service.version
      && "service.hostName" in r && r["service.hostName"] == service.hostName
  {
    var fields := IdentityFields(service, event);
    var written := AllContextFields(context);
    IdentityKeysAreNotContextKeys();
    assert forall key | key in written :: IsContextKey(key);
    forall key | key in IdentityKeys()
      ensures key in Stamp(m, service, event, context) && Stamp(m, service, event, context)[key] == fields[key]
    {
      assert key in fields && key !in written;
    }
    assert fields["version"] == LogVersion && fields["event"] == event;
    assert fields["service.name"] == service.name && fields["service.version"] == service.version;
    assert fields["service.hostName"] == service.hostName;
  }

  /** The log call sees `context.k` for every non-null entry of the context. */
  lemma StampContext(m: map<string, string>, service: ServiceInfo, event: string, context: Option<Context>)
    ensures var r := Stamp(m, service, event, context);
      context.Some? ==> forall k | k in context.value && context.value[k].Some? ::
        ContextKey(k) in r && r[ContextKey(k)] == context.value[k].value
  {
  }

  /** Every key that is neither an identity key nor a written context key keeps its prior state. */
  lemma StampKeepsOthers(m: map<string, string>, service: ServiceInfo, event: string, context: Option<Context>)
    ensures var r := Stamp(m, service, event, context);
      forall key | key !in IdentityKeys() && key !in AllContextFields(context) ::
        (key in r <==> key in m) && (key in m ==> r[key] == m[key])
  {
    assert IdentityFields(service, event).Keys == IdentityKeys();
  }

  /** The MDC after logEvent: the prior MDC without the cleanup keys. */
  function Unstamp(m: map<string, string>, context: Option<Context>): map<string, string> {
    m - CleanupKeys(context)
  }

  /**
    The cleanup keys are gone after logEvent, even when they were present
    before the call; every other key keeps its prior state.
   */
  lemma UnstampRemoves(m: map<string, string>, context: Option<Context>)
    ensures var r := Unstamp(m, context);
      forall key | key in CleanupKeys(context) :: key !in r
    ensures var r := Unstamp(m, context);
      forall key | key !in CleanupKeys(context) :: (key in r <==> key in m) && (key in m ==> r[key] == m[key])
  {
  }

  /** The context fields are all among the keys the cleanup removes. */
  lemma ContextFieldsAreCleaned(context: Option<Context>)
    ensures AllContextFields(context).Keys <= CleanupKeys(context)
  {
    if context.Some? {
      forall key | key in AllContextFields(context)
        ensures key in CleanupKeys(context)
      {
        var k :| k in context.value && key == ContextKey(k) && context.value[k].Some?;
        assert key in ContextKeySet(context.value.Keys);
      }
    }
  }

  /**
    Cleaning up after the stamp gives the same map as cleaning up the prior
    MDC: whatever logEvent wrote is removed, and nothing else is touched.
   */
  lemma {:induction false} UnstampUndoesStamp(m: map<string, string>, service: ServiceInfo, event: string, context: Option<Context>)
    ensures Unstamp(Stamp(m, service, event, context), context) == Unstamp(m, context)
  {
    var s := Stamp(m, service, event, context);
    ContextFieldsAreCleaned(context);
    assert IdentityFields(service, event).Keys == IdentityKeys();
    assert forall key :: key in s - CleanupKeys(context) <==> key in m - CleanupKeys(context);
  }

  /**
    logEvent restores the prior MDC exactly when the prior MDC held none of
    the keys it removes; otherwise a prior value under such a key is lost.
   */
  lemma {:induction false} UnstampRestoresIff(m: map<string, string>, context: Option<Context>)
    ensures Unstamp(m, context) == m <==> m.Keys !! CleanupKeys(context)
  {
    if m.Keys !! CleanupKeys(context) {
      assert Unstamp(m, context) == m;
    }
    if Unstamp(m, context) == m {
      forall key | key in m
        ensures key !in CleanupKeys(context)
      {
        assert key in Unstamp(m, context);
      }
    }
  }

  /**
    Keys outside the `context.` namespace and not among the identity keys
    (the request-scoped `requestId`, `clientIp`, ...) survive logEvent with
    their values, whatever the caller's context holds.
   */
  lemma {:induction false} ForeignKeysSurvive(m: map<string, string>, context: Option<Context>, key: string)
    requires key !in IdentityKeys() && !IsContextKey(key)
    ensures key in Unstamp(m, context) <==> key in m
    ensures key in m ==> Unstamp(m, context)[key] == m[key]
  {
    NotContextKey(key);
  }

  // ---------------------------------------------------------------------
  // logError's derived context

  /** The text of a stack trace: each frame followed by a newline. */
  function StackTrace(frames: seq<string>): (r: string)
    ensures |r| >= |frames|
    ensures r == [] <==> frames == []
    ensures frames != [] ==> r[|r| - 1] == '\n'
  {
    if frames == [] then [] else frames[0] + "\n" + StackTrace(frames[1..])
  }

  /** Appending a frame appends its line: the trace can be built frame by frame. */
  lemma {:induction false} StackTraceAppend(frames: seq<string>, frame: string)
    ensures StackTrace(frames + [frame]) == StackTrace(frames) + frame + "\n"
  {
    if frames == [] {
      assert [] + [frame] == [frame];
      assert StackTrace([frame]) == frame + "\n" + StackTrace([]);
    } else {
      var ext := frames + [frame];
      assert ext[0] == frames[0] && ext[1..] == frames[1..] + [frame];
      StackTraceAppend(frames[1..], frame);
      var tail := StackTrace(frames[1..]);
      assert StackTrace(ext) == frames[0] + "\n" + (tail + frame + "\n");
      assert StackTrace(frames) == frames[0] + "\n" + tail;
    }
  }

  /** The newline-terminated lines of `s` (a trailing unterminated line is kept too). */
  function Lines(s: string): seq<string>
    decreases |s|
  {
    if s == [] then []
    else if '\n' !in s then [s]
    else
      var i := IndexOfNewline(s);
      [s[..i]] + Lines(s[i + 1..])
  }

  /** The position of the first newline in `s`. */
  function IndexOfNewline(s: string): (i: nat)
    requires '\n' in s
    ensures i < |s| && s[i] == '\n' && '\n' !in s[..i]
  {
    if s[0] == '\n' then 0 else 1 + IndexOfNewline(s[1..])
  }

  /** The first newline of a line followed by its terminator is the terminator. */
  lemma {:induction false} IndexOfTerminator(line: string, rest: string)
    requires '\n' !in line
    ensures '\n' in line + "\n" + rest && IndexOfNewline(line + "\n" + rest) == |line|
  {
    var s := line + "\n" + rest;
    assert s[|line|] == '\n';
    if line != [] {
      assert s[1..] == line[1..] + "\n" + rest;
      IndexOfTerminator(line[1..], rest);
    }
  }

  /** Reading lines from a terminated line followed by more text. */
  lemma LinesCons(line: string, rest: string)
    requires '\n' !in line
    ensures Lines(line + "\n" + rest) == [line] + Lines(rest)
  {
    var s := line + "\n" + rest;
    IndexOfTerminator(line, rest);
    assert s[..|line|] == line;
    assert s[|line| + 1..] == rest;
  }

  /** When no frame contains a newline, the frames can be read back from the trace. */
  lemma {:induction false} LinesOfStackTrace(frames: seq<string>)
    requires forall i | 0 <= i < |frames| :: '\n' !in frames[i]
    ensures Lines(StackTrace(frames)) == frames
  {
    if frames != [] {
      LinesCons(frames[0], StackTrace(frames[1..]));
      LinesOfStackTrace(frames[1..]);
    }
  }

  /**
    The StringBuilder loop of logError: appends every frame and a newline,
    in order.
   */
  method BuildStackTrace(frames: seq<string>) returns (trace: string)
    ensures trace == StackTrace(frames)
  {
    trace := "";
    var i := 0;
    while i < |frames|
      invariant 0 <= i <= |frames|
      invariant trace == StackTrace(frames[..i])
    {
      StackTraceAppend(frames[..i], frames[i]);
      assert frames[..i + 1] == frames[..i] + [frames[i]];
      trace := trace + frames[i] + "\n";
      i := i + 1;
    }
    assert frames[..i] == frames;
  }

  /** The three keys logError adds for an exception. */
  function ErrorKeys(): set<string> {
    {"error.message", "error.type", "error.stack_trace"}
  }

  /**
    The context logError hands to logEvent: a copy of the caller's context
    (empty when the caller passed null) and, when an exception is given,
    its message (possibly null), class name and stack trace, which win
    over caller entries of the same name.
   */
  function ErrorData(context: Option<Context>, exception: Option<Throwable>): (r: Context)
    ensures exception.None? ==> r == context.GetOr(map[])
    ensures exception.Some? ==> r.Keys == context.GetOr(map[]).Keys + ErrorKeys()
    ensures exception.Some? ==> r["error.message"] == exception.value.message
    ensures exception.Some? ==> r["error.type"] == Some(exception.value.className)
    ensures exception.Some? ==> r["error.stack_trace"] == Some(StackTrace(exception.value.frames))
    ensures forall k | k in context.GetOr(map[]) && k !in ErrorKeys() :: k in r && r[k] == context.GetOr(map[])[k]
  {
    var copy := context.GetOr(map[]);
    match exception
    case None => copy
    case Some(e) =>
      copy["error.message" := e.message]
          ["error.type" := Some(e.className)]
          ["error.stack_trace" := Some(StackTrace(e.frames))]
  }

  /**
    What the log record of logError carries for an exception: its class
    name and stack trace under `context.error.type` and
    `context.error.stack_trace`, its message under `context.error.message`
    when the message is not null, and every caller entry that the error
    fields do not override; after the call none of these keys is left.
   */
  lemma {:induction false} ErrorFieldsReachRecord(m: map<string, string>, service: ServiceInfo, event: string,
                                                  context: Option<Context>, e: Throwable)
    ensures var s := Stamp(m, service, event, Some(ErrorData(context, Some(e))));
      && ContextKey("error.type") in s && s[ContextKey("error.type")] == e.className
      && ContextKey("error.stack_trace") in s && s[ContextKey("error.stack_trace")] == StackTrace(e.frames)
      && (e.message.Some? ==> ContextKey("error.message") in s && s[ContextKey("error.message")] == e.message.value)
      && (forall k | k in context.GetOr(map[]) && k !in ErrorKeys() && context.GetOr(map[])[k].Some? ::
            ContextKey(k) in s && s[ContextKey(k)] == context.GetOr(map[])[k].value)
    ensures var u := Unstamp(m, Some(ErrorData(context, Some(e))));
      forall k | k in ErrorKeys() :: ContextKey(k) !in u
  {
    var data := ErrorData(context, Some(e));
    forall k | k in ErrorKeys()
      ensures ContextKey(k) in CleanupKeys(Some(data))
    {
      assert ContextKey(k) in ContextKeySet(data.Keys);
    }
  }

  // ---------------------------------------------------------------------
  // The component

  /** LoggingUtils: the injected service name and version and the host name resolved at start-up. */
  class LoggingUtils {
    const service: ServiceInfo

    /**
      `hostLookup` is the outcome of the start-up host-name lookup: the
      name, or `None` when the lookup failed, in which case the host name
      is "unknown".
     */
    constructor (serviceName: string, serviceVersion: string, hostLookup: Option<string>)
      ensures service.name == serviceName && service.version == serviceVersion
      ensures hostLookup.Some? ==> service.hostName == hostLookup.value
      ensures hostLookup.None? ==> service.hostName == Unknown
    {
      var hostName := Unknown;
      if hostLookup.Some? {
        hostName := hostLookup.value;
      }
      service := ServiceInfo(serviceName, serviceVersion, hostName);
    }

    /**
      logEvent: stamp, log once at `level`, clean up. The record (when the
      sink does not throw) sees the stamped MDC; afterwards the MDC is the
      prior one minus the cleanup keys, on both outcomes.
     */
    method LogEvent(logger: Logger, mdc: Mdc, level: Level, event: string, message: string,
                    context: Option<Context>, sinkThrows: bool) returns (raised: bool)
      modifies logger, mdc
      ensures raised == sinkThrows
      ensures logger.records == old(logger.records) +
        (if sinkThrows then [] else [Record(level, message, [], Stamp(old(mdc.m), service, event, context))])
      ensures mdc.m == Unstamp(old(mdc.m), context)
    {
      ghost var before := mdc.m;
      mdc.Put("version", LogVersion);
      mdc.Put("event", event);
      mdc.Put("service.name", service.name);
      mdc.Put("service.version", service.version);
      mdc.Put("service.hostName", service.hostName);

      // try
      PutContext(mdc, context);
      assert mdc.m == Stamp(before, service, event, context) by {
        IdentityWrites(before, service, event);
      }
      raised := logger.Log(level, message, [], mdc, sinkThrows);

      // finally
      RemoveContext(mdc, context);
      mdc.Remove("version");
      mdc.Remove("event");
      mdc.Remove("service.name");
      mdc.Remove("service.version");
      mdc.Remove("service.hostName");
      assert mdc.m == Unstamp(before, context) by {
        CleanupAsWritten(before, service, event, context);
      }
    }

    /**
      logError: build the error context (the caller's map is a value and is
      never changed) and delegate to logEvent at ERROR.
     */
    method LogError(logger: Logger, mdc: Mdc, event: string, message: string,
                    exception: Option<Throwable>, context: Option<Context>, sinkThrows: bool) returns (raised: bool)
      modifies logger, mdc
      ensures raised == sinkThrows
      ensures logger.records == old(logger.records) +
        (if sinkThrows then []
         else [Record(ERROR, message, [], Stamp(old(mdc.m), service, event, Some(ErrorData(context, exception))))])
      ensures mdc.m == Unstamp(old(mdc.m), Some(ErrorData(context, exception)))
    {
      var errorData: Context := map[];
      if context.Some? {
        errorData := errorData + context.value;
      }
      if exception.Some? {
        var e := exception.value;
        errorData := errorData["error.message" := e.message];
        errorData := errorData["error.type" := Some(e.className)];
        var stackTrace := BuildStackTrace(e.frames);
        errorData := errorData["error.stack_trace" := Some(stackTrace)];
      }
      assert errorData == ErrorData(context, exception);
      raised := LogEvent(logger, mdc, ERROR, event, message, Some(errorData), sinkThrows);
    }
  }

  /** The five identity writes of logEvent overlay the identity fields. */
  lemma IdentityWrites(m: map<string, string>, service: ServiceInfo, event: string)
    ensures m["version" := LogVersion]["event" := event]["service.name" := service.name]
             ["service.version" := service.version]["service.hostName" := service.hostName]
            == m + IdentityFields(service, event)
  {
  }

  /** The cleanup of logEvent, context keys first and identity keys after, ends in the unstamped prior MDC. */
  lemma CleanupAsWritten(m: map<string, string>, service: ServiceInfo, event: string, context: Option<Context>)
    ensures Stamp(m, service, event, context) - ContextKeysOf(context)
              - {"version"} - {"event"} - {"service.name"} - {"service.version"} - {"service.hostName"}
            == Unstamp(m, context)
  {
    RemovalsInOrder(Stamp(m, service, event, context), ContextKeysOf(context));
    UnstampUndoesStamp(m, service, event, context);
  }

  /** Removing the context keys and then the identity keys one by one removes the cleanup keys. */
  lemma RemovalsInOrder(s: map<string, string>, contextKeys: set<string>)
    ensures s - contextKeys - {"version"} - {"event"} - {"service.name"} - {"service.version"} - {"service.hostName"}
            == s - (IdentityKeys() + contextKeys)
  {
  }

  /** logEvent's loop writing `context.k` for each non-null context entry. */
  method PutContext(mdc: Mdc, context: Option<Context>)
    modifies mdc
    ensures mdc.m == old(mdc.m) + AllContextFields(context)
  {
    if context.Some? {
      var ctx := context.value;
      var todo := ctx.Keys;
      ghost var done: set<string> := {};
      ghost var start := mdc.m;
      while todo != {}
        invariant done !! todo && done + todo == ctx.Keys
        invariant mdc.m == start + ContextFields(ctx, done)
        decreases todo
      {
        var k :| k in todo;
        PutStep(ctx, done, k);
        if ctx[k].Some? {
          OverlayPut(start, ContextFields(ctx, done), ContextKey(k), ctx[k].value);
          mdc.Put(ContextKey(k), ctx[k].value);
        }
        todo := todo - {k};
        done := done + {k};
      }
    }
  }

  /** logEvent's cleanup loop removing `context.k` for every context key, null-valued or not. */
  method RemoveContext(mdc: Mdc, context: Option<Context>)
    modifies mdc
    ensures mdc.m == old(mdc.m) - ContextKeysOf(context)
  {
    if context.Some? {
      var ctx := context.value;
      var todo := ctx.Keys;
      ghost var done: set<string> := {};
      ghost var start := mdc.m;
      while todo != {}
        invariant done !! todo && done + todo == ctx.Keys
        invariant mdc.m == start - ContextKeySet(done)
        decreases todo
      {
        var k :| k in todo;
        mdc.Remove(ContextKey(k));
        todo := todo - {k};
        assert ContextKeySet(done + {k}) == ContextKeySet(done) + {ContextKey(k)};
        done := done + {k};
      }
    }
  }

  /** Writing a key on top of an overlay writes it into the upper layer. */
  lemma OverlayPut(lower: map<string, string>, upper: map<string, string>, key: string, value: string)
    ensures (lower + upper)[key := value] == lower + upper[key := value]
  {
  }

  /** One step of the stamping loop: adding entry `k` to the written fields. */
  lemma PutStep(ctx: Context, done: set<string>, k: string)
    requires k in ctx && k !in done
    ensures ContextFields(ctx, done + {k}) ==
      if ctx[k].Some? then ContextFields(ctx, done)[ContextKey(k) := ctx[k].value]
      else ContextFields(ctx, done)
  {
    var a := ContextFields(ctx, done + {k});
    var b := if ctx[k].Some? then ContextFields(ctx, done)[ContextKey(k) := ctx[k].value]
             else ContextFields(ctx, done);
    ContextKeyInjective();
    forall key | key in a || key in b
      ensures key in a && key in b && a[key] == b[key]
    {
      if key == ContextKey(k) {
      } else {
        assert IsContextKey(key);
        StripContextKey(key);
      }
    }
  }
}
