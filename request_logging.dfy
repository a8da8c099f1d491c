/**
  The request boundary (RequestLoggingInterceptor.java): derive the client
  IP and the request ID from the headers, put the request's identity into
  the MDC on entry, and on completion log one summary line and clear the
  MDC whatever happens.
 */
module RequestLogging {
  import opened Wrappers
  import opened Ambient

  /** The request attribute that carries the start time between the two phases. */
  const StartTimeAttribute: string := "startTime"

  /** The SLF4J format of the summary line: method, URI, status, duration. */
  const SummaryFormat: string := "HTTP {} {} - {} ({}ms)"

  /** A request attribute: a boxed `Long`, or an object of some other class. */
  datatype AttributeValue = LongValue(n: int) | OtherValue

  /**
    A servlet request: what the interceptor reads is fixed for the request's
    lifetime; its attributes are the only state the interceptor changes.
   */
  class HttpRequest {
    /** Header values by exact header name; a missing name reads as null. */
    const headers: map<string, string>
    const remoteAddr: string
    const requestUri: string
    const httpMethod: string
    /** The id of the existing session (`getSession(false)`), if there is one. */
    const session: Option<string>
    var attributes: map<string, AttributeValue>

    constructor (headers: map<string, string>, remoteAddr: string, requestUri: string,
                 httpMethod: string, session: Option<string>)
      ensures this.headers == headers && this.remoteAddr == remoteAddr
      ensures this.requestUri == requestUri && this.httpMethod == httpMethod
      ensures this.session == session && attributes == map[]
    {
      this.headers := headers;
      this.remoteAddr := remoteAddr;
      this.requestUri := requestUri;
      this.httpMethod := httpMethod;
      this.session := session;
      attributes := map[];
    }
  }

  /** `request.getHeader(name)`. */
  function Header(headers: map<string, string>, name: string): Option<string> {
    if name in headers then Some(headers[name]) else None
  }

  // ---------------------------------------------------------------------
  // Client IP

  /** ASCII lower-casing of one character. */
  function Lower(c: char): char {
    if 'A' <= c <= 'Z' then (c as int + 32) as char else c
  }

  /** `a.equalsIgnoreCase(b)`, folding ASCII letters only. */
  predicate EqualsIgnoreCase(a: string, b: string) {
    |a| == |b| && forall i | 0 <= i < |a| :: Lower(a[i]) == Lower(b[i])
  }

  /** A header value getClientIp falls through on: null, empty, or "unknown" in any casing. */
  predicate Rejected(v: Option<string>) {
    v.None? || v.value == "" || EqualsIgnoreCase("unknown", v.value)
  }

  /**
    getClientIp: `X-Forwarded-For`, else `X-Real-IP`, else the remote
    address. A header value is taken whole (a list of addresses is not
    split); the remote address is taken as it is, even when empty.
   */
  function ClientIp(headers: map<string, string>, remoteAddr: string): (ip: string)
    ensures !Rejected(Header(headers, "X-Forwarded-For")) ==> ip == headers["X-Forwarded-For"]
    ensures Rejected(Header(headers, "X-Forwarded-For")) && !Rejected(Header(headers, "X-Real-IP")) ==>
      ip == headers["X-Real-IP"]
    ensures Rejected(Header(headers, "X-Forwarded-For")) && Rejected(Header(headers, "X-Real-IP")) ==>
      ip == remoteAddr
  {
    var forwarded := Header(headers, "X-Forwarded-For");
    var candidate := if Rejected(forwarded) then Header(headers, "X-Real-IP") else forwarded;
    if Rejected(candidate) then remoteAddr else candidate.value
  }

  /**
    Reference definition of a fall-through chain: the first candidate that
    is not rejected, else the fallback.
   */
  function FirstAccepted(candidates: seq<Option<string>>, fallback: string): (r: string)
    ensures r == fallback || exists i | 0 <= i < |candidates| :: candidates[i] == Some(r) && !Rejected(candidates[i])
  {
    if candidates == [] then fallback
    else if !Rejected(candidates[0]) then candidates[0].value
    else FirstAccepted(candidates[1..], fallback)
  }

  /** getClientIp is the first accepted of the two headers, with the remote address as fallback. */
  lemma ClientIpIsFirstAccepted(headers: map<string, string>, remoteAddr: string)
    ensures ClientIp(headers, remoteAddr) ==
      FirstAccepted([Header(headers, "X-Forwarded-For"), Header(headers, "X-Real-IP")], remoteAddr)
  {
    var cs := [Header(headers, "X-Forwarded-For"), Header(headers, "X-Real-IP")];
    assert cs[1..][1..] == [];
  }

  /**
    getClientIp never yields a rejected header value: what it returns is
    the remote address or an accepted value of one of the two headers.
   */
  lemma ClientIpNeverRejectedHeader(headers: map<string, string>, remoteAddr: string)
    ensures var ip := ClientIp(headers, remoteAddr);
      ip == remoteAddr ||
      (!Rejected(Some(ip)) &&
       (Header(headers, "X-Forwarded-For") == Some(ip) || Header(headers, "X-Real-IP") == Some(ip)))
  {
  }

  /** An "unknown" forwarded-for header in upper case falls through to X-Real-IP. */
  lemma ClientIpSkipsUnknownInAnyCase()
    ensures ClientIp(map["X-Forwarded-For" := "UNKNOWN", "X-Real-IP" := "10.0.0.1"], "5.6.7.8") == "10.0.0.1"
  {
    var h := map["X-Forwarded-For" := "UNKNOWN", "X-Real-IP" := "10.0.0.1"];
    assert Rejected(Header(h, "X-Forwarded-For")) by {
      assert forall i | 0 <= i < 7 :: Lower("unknown"[i]) == Lower("UNKNOWN"[i]);
    }
    assert !Rejected(Header(h, "X-Real-IP")) by {
      assert Lower("unknown"[0]) != Lower("10.0.0.1"[0]);
    }
  }

  // ---------------------------------------------------------------------
  // Request ID

  /** A header value getRequestId falls through on: null or empty ("unknown" is kept). */
  predicate Missing(v: Option<string>) {
    v.None? || v.value == ""
  }

  /**
    getRequestId: `X-Request-ID`, else `X-Correlation-ID`, else the
    `Request-ID` header as it is (even empty), and "unknown" only when that
    last header is absent.
   */
  function RequestId(headers: map<string, string>): (id: string)
    ensures !Missing(Header(headers, "X-Request-ID")) ==> id == headers["X-Request-ID"]
    ensures Missing(Header(headers, "X-Request-ID")) && !Missing(Header(headers, "X-Correlation-ID")) ==>
      id == headers["X-Correlation-ID"]
    ensures Missing(Header(headers, "X-Request-ID")) && Missing(Header(headers, "X-Correlation-ID")) ==>
      id == Header(headers, "Request-ID").GetOr("unknown")
  {
    var first := Header(headers, "X-Request-ID");
    var second := if Missing(first) then Header(headers, "X-Correlation-ID") else first;
    var third := if Missing(second) then Header(headers, "Request-ID") else second;
    third.GetOr("unknown")
  }

  /** getRequestId yields "" exactly when the first two headers are missing and `Request-ID` is empty. */
  lemma RequestIdEmptyIff(headers: map<string, string>)
    ensures RequestId(headers) == "" <==>
      Missing(Header(headers, "X-Request-ID")) && Missing(Header(headers, "X-Correlation-ID")) &&
      Header(headers, "Request-ID") == Some("")
  {
  }

  /**
    When no header literally says "unknown", getRequestId yields "unknown"
    exactly when the first two headers are missing and `Request-ID` is absent.
   */
  lemma RequestIdSentinelIff(headers: map<string, string>)
    requires Header(headers, "X-Request-ID") != Some("unknown")
    requires Header(headers, "X-Correlation-ID") != Some("unknown")
    requires Header(headers, "Request-ID") != Some("unknown")
    ensures RequestId(headers) == "unknown" <==>
      Missing(Header(headers, "X-Request-ID")) && Missing(Header(headers, "X-Correlation-ID")) &&
      Header(headers, "Request-ID").None?
  {
  }

  // ---------------------------------------------------------------------
  // String.valueOf for integers

  /** The decimal digit for `d`. */
  function DigitChar(d: nat): (c: char)
    requires d < 10
    ensures '0' <= c <= '9'
  {
    "0123456789"[d]
  }

  /** The value of a decimal digit. */
  function DigitValue(c: char): nat {
    if '0' <= c <= '9' then c as int - '0' as int else 0
  }

  /** The decimal digits of `n`, most significant first, without leading zeros. */
  function Digits(n: nat): (s: string)
    ensures |s| >= 1 && forall i | 0 <= i < |s| :: '0' <= s[i] <= '9'
    decreases n
  {
    if n < 10 then [DigitChar(n)] else Digits(n / 10) + [DigitChar(n % 10)]
  }

  /** `String.valueOf(n)`: the decimal form, with a leading '-' for negative numbers. */
  function Decimal(n: int): (s: string)
    ensures |s| >= 1 && (s[0] == '-' <==> n < 0)
  {
    if n < 0 then "-" + Digits(-n) else Digits(n)
  }

  /** The number a string of decimal digits denotes. */
  function ParseDigits(s: string): nat {
    if s == [] then 0 else 10 * ParseDigits(s[..|s| - 1]) + DigitValue(s[|s| - 1])
  }

  /** The number a decimal form denotes. */
  function ParseDecimal(s: string): int {
    if |s| > 0 && s[0] == '-' then -(ParseDigits(s[1..]) as int) else ParseDigits(s)
  }

  lemma {:induction false} ParseDigitsOfDigits(n: nat)
    ensures ParseDigits(Digits(n)) == n
    decreases n
  {
    var s := Digits(n);
    if n >= 10 {
      assert s[..|s| - 1] == Digits(n / 10);
      ParseDigitsOfDigits(n / 10);
    }
  }

  /** The decimal form reads back as the number: the rendering loses nothing. */
  lemma DecimalRoundTrip(n: int)
    ensures ParseDecimal(Decimal(n)) == n
  {
    if n < 0 {
      NegativeRoundTrip(n);
    } else {
      NonNegativeRoundTrip(n);
    }
  }

  /** The round trip for a negative number: a minus sign followed by the digits of its magnitude. */
  lemma NegativeRoundTrip(n: int)
    requires n < 0
    ensures ParseDecimal(Decimal(n)) == n
  {
    var m: nat := -n;
    var d := Digits(m);
    assert Decimal(n) == "-" + d;
    ParseNegative(d);
    ParseDigitsOfDigits(m);
  }

  /** The round trip for a number without a sign. */
  lemma NonNegativeRoundTrip(n: nat)
    ensures ParseDecimal(Decimal(n)) == n
  {
    var d := Digits(n);
    assert Decimal(n) == d;
    ParseUnsigned(d);
    ParseDigitsOfDigits(n);
  }

  /** Without a leading '-', the decimal form is read as plain digits. */
  lemma ParseUnsigned(d: string)
    requires |d| >= 1 && d[0] != '-'
    ensures ParseDecimal(d) == ParseDigits(d) as int
  {
  }

  /** A leading '-' negates the digits that follow it. */
  lemma ParseNegative(d: string)
    ensures ParseDecimal("-" + d) == -(ParseDigits(d) as int)
  {
    assert ("-" + d)[0] == '-' && ("-" + d)[1..] == d;
  }

  // ---------------------------------------------------------------------
  // The interceptor

  /** The start time the unboxing cast of afterCompletion reads: a `Long` attribute, or nothing. */
  function StartTime(attributes: map<string, AttributeValue>): Option<int> {
    if StartTimeAttribute in attributes && attributes[StartTimeAttribute].LongValue?
    then Some(attributes[StartTimeAttribute].n)
    else None
  }

  /** The request keys preHandle writes. */
  function RequestKeys(): set<string> {
    {"clientIp", "requestId", "path", "method", "sessionId"}
  }

  /** The five MDC fields preHandle writes for `request`. */
  function RequestFields(request: HttpRequest): (r: map<string, string>)
    ensures r.Keys == RequestKeys()
    ensures r["sessionId"] == "none" <==> request.session.None? || request.session == Some("none")
    ensures r["clientIp"] == ClientIp(request.headers, request.remoteAddr)
    ensures r["requestId"] == RequestId(request.headers)
  {
    map["clientIp" := ClientIp(request.headers, request.remoteAddr),
        "requestId" := RequestId(request.headers),
        "path" := request.requestUri,
        "method" := request.httpMethod,
        "sessionId" := request.session.GetOr("none")]
  }

  /** The five writes of preHandle overlay the request fields. */
  lemma RequestWrites(m: map<string, string>, request: HttpRequest)
    ensures m["clientIp" := ClientIp(request.headers, request.remoteAddr)]
             ["requestId" := RequestId(request.headers)]
             ["path" := request.requestUri]["method" := request.httpMethod]
             ["sessionId" := request.session.GetOr("none")]
            == m + RequestFields(request)
  {
  }

  /**
    The summary record of afterCompletion: INFO, the format with the
    method, URI, status and duration, over the MDC it found plus
    `durationMs` and `status`.
   */
  function SummaryRecord(request: HttpRequest, status: int, duration: int, prior: map<string, string>): Record {
    Record(INFO, SummaryFormat, [request.httpMethod, request.requestUri, Decimal(status), Decimal(duration)],
           prior["durationMs" := Decimal(duration)]["status" := Decimal(status)])
  }

  /** The interceptor; its logger is the class's static SLF4J logger. */
  class RequestLoggingInterceptor {
    const log: Logger

    constructor (log: Logger)
      ensures this.log == log
    {
      this.log := log;
    }

    /**
      preHandle: stamp the start time on the request (replacing any earlier
      one, leaving the other attributes alone), write the five request
      fields into the MDC, and let the request through.
     */
    method PreHandle(request: HttpRequest, mdc: Mdc, now: int) returns (proceed: bool)
      modifies request, mdc
      ensures proceed
      ensures request.attributes == old(request.attributes)[StartTimeAttribute := LongValue(now)]
      ensures StartTime(request.attributes) == Some(now)
      ensures mdc.m == old(mdc.m) + RequestFields(request)
    {
      ghost var before := mdc.m;
      request.attributes := request.attributes[StartTimeAttribute := LongValue(now)];
      var clientIp := ClientIp(request.headers, request.remoteAddr);
      mdc.Put("clientIp", clientIp);
      var requestId := RequestId(request.headers);
      mdc.Put("requestId", requestId);
      mdc.Put("path", request.requestUri);
      mdc.Put("method", request.httpMethod);
      var sessionId := "none";
      if request.session.Some? {
        sessionId := request.session.value;
      }
      mdc.Put("sessionId", sessionId);
      assert mdc.m == before + RequestFields(request) by {
        RequestWrites(before, request);
      }
      proceed := true;
    }

    /** postHandle: does nothing. */
    method PostHandle(request: HttpRequest, mdc: Mdc)
      ensures unchanged(request, mdc, log)
    {
    }

    /**
      afterCompletion: read the start time, write `durationMs` and `status`,
      log one INFO summary, and clear the MDC in every case. A missing or
      non-`Long` start time raises before anything is written or logged; a
      throwing sink raises after the writes. Either way the MDC ends empty.
     */
    method AfterCompletion(request: HttpRequest, status: int, mdc: Mdc, now: int, sinkThrows: bool)
      returns (raised: bool)
      modifies log, mdc
      ensures mdc.m == map[]
      ensures raised == (StartTime(request.attributes).None? || sinkThrows)
      ensures StartTime(request.attributes).None? ==> log.records == old(log.records)
      ensures StartTime(request.attributes).Some? ==>
        log.records == old(log.records) +
          if sinkThrows then []
          else [SummaryRecord(request, status, now - StartTime(request.attributes).value, old(mdc.m))]
    {
      // try
      var startTime := StartTime(request.attributes);
      if startTime.None? {
        raised := true;
      } else {
        var duration := now - startTime.value;
        mdc.Put("durationMs", Decimal(duration));
        mdc.Put("status", Decimal(status));
        raised := log.Log(INFO, SummaryFormat,
                          [request.httpMethod, request.requestUri, Decimal(status), Decimal(duration)],
                          mdc, sinkThrows);
      }
      // finally
      mdc.Clear();
    }
  }
}
