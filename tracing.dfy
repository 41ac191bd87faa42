/**
 * Request correlation for the login service: the value-level logic that
 * both of its entry points (app.py and instrumentation.py) share, and the
 * per-request objects the two `before_request`/`after_request` hooks touch.
 *
 * - identifier tokens: `uid()` cuts the first twelve characters of a fresh
 *   `uuid4().hex`;
 * - trace-context resolution at request entry (`start_span`);
 * - the elapsed time in whole milliseconds, the ten-key log record and its
 *   JSON object form, and the correlation headers written on the response
 *   at request exit (`end_span`).
 *
 * Randomness and the clock are inputs: a `UuidSource` hands out the
 * `uuid4().hex` strings in order, and timestamps are integer microseconds.
 */
module Tracing {

  datatype Option<+T> = None | Some(value: T)

  /** Header collection of a request or a response: header name to value. */
  type Headers = map<string, string>

  const TraceHeader: string := "X-Trace-ID"
  const SpanHeader: string := "X-Span-ID"

  /** The constant fields of every log record. */
  const Level: string := "INFO"
  const ServiceName: string := "serviciu-login"
  const Message: string := "request completed"

  const HexDigits: string := "0123456789abcdef"

  predicate IsLowerHex(s: string) {
    forall i :: 0 <= i < |s| ==> s[i] in HexDigits
  }

  /** What `uuid4().hex` always is: 32 lower-case hexadecimal digits. */
  predicate IsUuidHex(h: string) {
    |h| == 32 && IsLowerHex(h)
  }

  // ---------------------------------------------------------------------
  // Identifier tokens
  // ---------------------------------------------------------------------

  /** Python's slice `s[:n]`: the first n characters, or all of s if shorter. */
  function Prefix(s: string, n: nat): (r: string)
    ensures r <= s
    ensures |r| == if n <= |s| then n else |s|
  {
    if n <= |s| then s[..n] else s
  }

  /** `uid()` applied to the hex string its `uuid4()` call produced. */
  function Uid(hex: string): (t: string)
    ensures t <= hex
    ensures |hex| >= 12 ==> |t| == 12
    ensures IsUuidHex(hex) ==> |t| == 12 && t == hex[..12] && IsLowerHex(t)
  {
    Prefix(hex, 12)
  }

  /** Python's string repetition `s * n` (the empty string when n <= 0). */
  function Repeat(s: string, n: int): (r: string)
    ensures |r| == if n <= 0 then 0 else n * |s|
    ensures n > 0 ==> r[..|s|] == s
    decreases n
  {
    if n <= 0 then "" else
      var rest := Repeat(s, n - 1);
      assert |s + rest| == |s| + (n - 1) * |s| == n * |s|;
      s + rest
  }

  /** `s * n` repeats with period |s|: each character equals the one |s| places before it. */
  lemma {:induction false} RepeatShift(s: string, n: int, i: int)
    requires |s| <= i < |Repeat(s, n)|
    ensures Repeat(s, n)[i] == Repeat(s, n)[i - |s|]
  {
    var rest := Repeat(s, n - 1);
    assert Repeat(s, n) == s + rest;
    if i - |s| < |s| {
      assert rest == s + Repeat(s, n - 2);
    } else {
      RepeatShift(s, n - 1, i - |s|);
    }
  }

  /** `t * 2` is t followed by t. */
  lemma RepeatTwice(s: string)
    ensures Repeat(s, 2) == s + s
  {
  }

  // ---------------------------------------------------------------------
  // Request entry: trace-context resolution
  // ---------------------------------------------------------------------

  /** `headers.get(name)`. */
  function Lookup(headers: Headers, name: string): (v: Option<string>)
    ensures v.Some? <==> name in headers
    ensures v.Some? ==> v.value == headers[name]
  {
    if name in headers then Some(headers[name]) else None
  }

  /** `headers.get(name, default)`; the default is an already computed value. */
  function GetOr(headers: Headers, name: string, default: string): (v: string)
    ensures name in headers ==> v == headers[name]
    ensures name !in headers ==> v == default
  {
    if name in headers then headers[name] else default
  }

  /** What `start_span` attaches to `g` for one request. */
  datatype TraceContext = TraceContext(
    traceId: string,
    spanId: string,
    parentSpanId: Option<string>,
    start: int)

  /**
   * `start_span` as a function of the inbound headers, the two hex strings its
   * two `uid()` calls draw (the first for the trace-id default, which Python
   * evaluates even when the header is present, the second for the span id)
   * and the entry time.
   */
  function ResolveContext(headers: Headers, traceHex: string, spanHex: string, now: int): (ctx: TraceContext)
    // an inbound trace id is continued verbatim, whatever it holds
    ensures TraceHeader in headers ==> ctx.traceId == headers[TraceHeader]
    // otherwise it is one 12-character token written twice: 24 characters
    ensures TraceHeader !in headers && IsUuidHex(traceHex) ==>
      && |ctx.traceId| == 24
      && ctx.traceId[..12] == ctx.traceId[12..] == traceHex[..12]
      && IsLowerHex(ctx.traceId)
    // the span id is always the fresh token; no header is consulted for it
    ensures ctx.spanId == Uid(spanHex)
    ensures IsUuidHex(spanHex) ==> |ctx.spanId| == 12 && IsLowerHex(ctx.spanId)
    // the parent span is the inbound span header, when there is one
    ensures ctx.parentSpanId.Some? <==> SpanHeader in headers
    ensures ctx.parentSpanId.Some? ==> ctx.parentSpanId.value == headers[SpanHeader]
    ensures ctx.start == now
  {
    RepeatTwice(Uid(traceHex));
    TraceContext(
      GetOr(headers, TraceHeader, Repeat(Uid(traceHex), 2)),
      Uid(spanHex),
      Lookup(headers, SpanHeader),
      now)
  }

  /** The span id never depends on the inbound headers or on the first draw. */
  lemma SpanIdIgnoresHeaders(h1: Headers, h2: Headers, traceHex1: string, traceHex2: string,
                             spanHex: string, now1: int, now2: int)
    ensures ResolveContext(h1, traceHex1, spanHex, now1).spanId
         == ResolveContext(h2, traceHex2, spanHex, now2).spanId
  {
  }

  // ---------------------------------------------------------------------
  // Request exit: duration, log record, JSON object, response headers
  // ---------------------------------------------------------------------

  /**
   * `int((time.time() - g.start) * 1000)` with both times in microseconds:
   * the elapsed milliseconds, truncated toward zero.
   */
  function DurationMs(start: int, end: int): (d: int)
    ensures start <= end ==> 0 <= d && d * 1000 <= end - start < d * 1000 + 1000
    ensures end < start ==> d <= 0 && d * 1000 - 1000 < end - start <= d * 1000
  {
    var elapsed := end - start;
    if elapsed >= 0 then elapsed / 1000 else -((-elapsed) / 1000)
  }

  /** A later end never gives a shorter duration. */
  lemma DurationMonotonic(start: int, end1: int, end2: int)
    requires end1 <= end2
    ensures DurationMs(start, end1) <= DurationMs(start, end2)
  {
  }

  /** Python's `v or None` on an optional string: an empty string becomes None. */
  function OrNone(v: Option<string>): (r: Option<string>)
    ensures r.Some? <==> v.Some? && v.value != ""
    ensures r.Some? ==> r == v
  {
    if v.Some? && v.value != "" then v else None
  }

  /** The structured record `end_span` emits for one completed request. */
  datatype LogRecord = LogRecord(
    timestamp: string,
    level: string,
    service: string,
    traceId: string,
    spanId: string,
    parentSpanId: Option<string>,
    durationMs: int,
    path: string,
    statusCode: int,
    message: string)

  /**
   * The record `end_span` builds from the request context, the request path,
   * the response status, the exit time and the (opaque) timestamp string.
   */
  function BuildRecord(ctx: TraceContext, path: string, status: int, end: int, timestamp: string): (r: LogRecord)
    ensures r.level == Level && r.service == ServiceName && r.message == Message
    ensures r.traceId == ctx.traceId && r.spanId == ctx.spanId
    ensures r.parentSpanId.Some? <==> ctx.parentSpanId.Some? && ctx.parentSpanId.value != ""
    ensures r.parentSpanId.Some? ==> r.parentSpanId == ctx.parentSpanId
    ensures ctx.start <= end ==> r.durationMs >= 0
    ensures r.durationMs == DurationMs(ctx.start, end)
    ensures r.path == path && r.statusCode == status && r.timestamp == timestamp
  {
    LogRecord(timestamp, Level, ServiceName, ctx.traceId, ctx.spanId, OrNone(ctx.parentSpanId),
              DurationMs(ctx.start, end), path, status, Message)
  }

  /** The JSON values a record holds. */
  datatype Json = JString(str: string) | JInt(num: int) | JNull

  /** A JSON object: the dictionary handed to `json.dumps`. */
  type JsonObject = map<string, Json>

  const RecordKeys: set<string> := {
    "timestamp", "level", "service", "trace_id", "span_id",
    "parent_span_id", "duration_ms", "path", "status_code", "message"
  }

  /** The record's ten keys are distinct. */
  lemma RecordKeysCount()
    ensures |RecordKeys| == 10
  {
  }

  /** The dictionary literal of `end_span`, as the JSON object that is logged. */
  function AsJson(r: LogRecord): (obj: JsonObject)
    ensures obj.Keys == RecordKeys
    ensures obj["trace_id"] == JString(r.traceId) && obj["span_id"] == JString(r.spanId)
    ensures obj["parent_span_id"] == JNull <==> r.parentSpanId.None?
    ensures obj["duration_ms"] == JInt(r.durationMs) && obj["status_code"] == JInt(r.statusCode)
  {
    map[
      "timestamp" := JString(r.timestamp),
      "level" := JString(r.level),
      "service" := JString(r.service),
      "trace_id" := JString(r.traceId),
      "span_id" := JString(r.spanId),
      "parent_span_id" := (if r.parentSpanId.Some? then JString(r.parentSpanId.value) else JNull),
      "duration_ms" := JInt(r.durationMs),
      "path" := JString(r.path),
      "status_code" := JInt(r.statusCode),
      "message" := JString(r.message)
    ]
  }

  /**
   * Reading a logged object back into a record, as a log consumer does: every
   * key present, strings and integers where the record has them, and a string
   * or null for the parent span.
   */
  function FromJson(obj: JsonObject): (r: Option<LogRecord>)
    ensures r.Some? ==> RecordKeys <= obj.Keys
  {
    if && RecordKeys <= obj.Keys
       && obj["timestamp"].JString? && obj["level"].JString? && obj["service"].JString?
       && obj["trace_id"].JString? && obj["span_id"].JString?
       && (obj["parent_span_id"].JString? || obj["parent_span_id"].JNull?)
       && obj["duration_ms"].JInt? && obj["path"].JString?
       && obj["status_code"].JInt? && obj["message"].JString?
    then
      Some(LogRecord(
        obj["timestamp"].str, obj["level"].str, obj["service"].str,
        obj["trace_id"].str, obj["span_id"].str,
        if obj["parent_span_id"].JString? then Some(obj["parent_span_id"].str) else None,
        obj["duration_ms"].num, obj["path"].str, obj["status_code"].num, obj["message"].str))
    else
      None
  }

  /** A logged object carries its whole record: nothing is lost in the JSON form. */
  lemma JsonRoundTrip(r: LogRecord)
    ensures FromJson(AsJson(r)) == Some(r)
  {
  }

  /** An object with exactly the record's keys that reads back is the JSON form of what it reads as. */
  lemma JsonRoundTripBack(obj: JsonObject, r: LogRecord)
    requires obj.Keys == RecordKeys && FromJson(obj) == Some(r)
    ensures AsJson(r) == obj
  {
  }

  /**
   * The two `response.headers[...] = ...` assignments of `end_span`: both
   * correlation headers are set, replacing earlier values; every other
   * header is kept as it was.
   */
  function Propagate(headers: Headers, traceId: string, spanId: string): (out: Headers)
    ensures out.Keys == headers.Keys + {TraceHeader, SpanHeader}
    ensures out[TraceHeader] == traceId && out[SpanHeader] == spanId
    ensures forall k :: k in headers && k != TraceHeader && k != SpanHeader ==> out[k] == headers[k]
  {
    headers[TraceHeader := traceId][SpanHeader := spanId]
  }

  /**
   * End to end for one request: an inbound trace id reaches both the log
   * record and the outbound trace header unchanged, and the outbound span
   * header names the span the record names.
   */
  lemma InboundTraceSurvives(inbound: Headers, traceHex: string, spanHex: string, start: int,
                             outbound: Headers, path: string, status: int, end: int, timestamp: string)
    requires TraceHeader in inbound
    ensures var ctx := ResolveContext(inbound, traceHex, spanHex, start);
            var rec := BuildRecord(ctx, path, status, end, timestamp);
            var out := Propagate(outbound, ctx.traceId, ctx.spanId);
            && rec.traceId == inbound[TraceHeader]
            && out[TraceHeader] == inbound[TraceHeader]
            && out[SpanHeader] == rec.spanId
  {
  }

  /**
   * A request without correlation headers starts a new trace: a 24-character
   * trace id, a 12-character span id, and a null parent span in the record.
   */
  lemma NewTraceScenario(traceHex: string, spanHex: string, start: int,
                         path: string, status: int, end: int, timestamp: string)
    requires IsUuidHex(traceHex) && IsUuidHex(spanHex)
    ensures var ctx := ResolveContext(map[], traceHex, spanHex, start);
            var rec := BuildRecord(ctx, path, status, end, timestamp);
            && |rec.traceId| == 24 && |rec.spanId| == 12
            && AsJson(rec)["parent_span_id"] == JNull
  {
  }

  /**
   * A request carrying `X-Trace-ID: abc123` and `X-Span-ID: parent01`
   * continues trace abc123 under parent parent01, with a span id of its own.
   */
  lemma ContinuedTraceScenario(traceHex: string, spanHex: string, start: int,
                               path: string, status: int, end: int, timestamp: string)
    requires IsUuidHex(spanHex)
    ensures var ctx := ResolveContext(map[TraceHeader := "abc123", SpanHeader := "parent01"], traceHex, spanHex, start);
            var rec := BuildRecord(ctx, path, status, end, timestamp);
            && rec.traceId == "abc123"
            && rec.parentSpanId == Some("parent01")
            && rec.spanId != "parent01"
  {
  }

  // ---------------------------------------------------------------------
  // The per-request objects both hooks work on
  // ---------------------------------------------------------------------

  /** The request as the hooks see it. */
  datatype Request = Request(path: string, headers: Headers)

  /**
   * The stream of `uuid4().hex` values a process draws, in order; `drawn`
   * counts the draws made so far.
   */
  class UuidSource {
    const hexes: nat -> string
    var drawn: nat

    /** Every value the stream hands out has the shape of `uuid4().hex`. */
    ghost predicate Valid() {
      forall n: nat :: IsUuidHex(hexes(n))
    }

    constructor (hexes: nat -> string)
      ensures this.hexes == hexes && drawn == 0
    {
      this.hexes := hexes;
      drawn := 0;
    }

    /** `uuid.uuid4().hex`: the next value of the stream. */
    method Hex() returns (h: string)
      modifies this`drawn
      ensures h == hexes(old(drawn)) && drawn == old(drawn) + 1
      ensures Valid() ==> IsUuidHex(h)
    {
      h := hexes(drawn);
      drawn := drawn + 1;
    }
  }

  /**
   * Flask's request-scoped `g` as `start_span` fills it; `entered` records
   * that `start_span` has run for this request.
   */
  class RequestGlobals {
    var traceId: string
    var spanId: string
    var parentSpanId: Option<string>
    var start: int
    ghost var entered: bool

    constructor ()
      ensures !entered
    {
      traceId, spanId, parentSpanId, start := "", "", None, 0;
      entered := false;
    }

    function Context(): TraceContext
      reads this
    {
      TraceContext(traceId, spanId, parentSpanId, start)
    }
  }

  /** The response the handler produced, with its mutable header collection. */
  class Response {
    var status: int
    var headers: Headers
    var body: string

    constructor (status: int, headers: Headers, body: string)
      ensures this.status == status && this.headers == headers && this.body == body
    {
      this.status, this.headers, this.body := status, headers, body;
    }
  }
}
