/**
 * The correlation hooks of instrumentation.py. They resolve the trace
 * context exactly as app.py does; the record goes through the `myapp`
 * logger (`logger.info(json.dumps(log))`), whose file handler writes the
 * bare message, one JSON object per line.
 */
module Instrumentation {
  import opened Tracing

  /** Python's numeric value of the INFO logging level. */
  const InfoLevel: int := 20

  /**
   * The `myapp` logger with its file handler. `threshold` is the least level
   * that reaches the file: the larger of the logger's and the handler's
   * levels, both INFO here.
   */
  class Logger {
    const threshold: int
    var lines: seq<JsonObject>

    constructor ()
      ensures threshold == InfoLevel && lines == []
    {
      threshold := InfoLevel;
      lines := [];
    }

    /** `logger.info(json.dumps(line))`: written when INFO passes the threshold. */
    method Info(line: JsonObject)
      modifies this`lines
      ensures lines == if InfoLevel >= threshold then old(lines) + [line] else old(lines)
    {
      if InfoLevel >= threshold {
        lines := lines + [line];
      }
    }
  }

  /**
   * `start_span`: resolve the trace context from the inbound headers and
   * record the entry time on `g`; two draws from the stream either way.
   */
  method StartSpan(request: Request, g: RequestGlobals, uuids: UuidSource, now: int)
    requires uuids.Valid()
    modifies g, uuids`drawn
    ensures uuids.drawn == old(uuids.drawn) + 2
    ensures g.entered
    ensures g.Context() == ResolveContext(request.headers, uuids.hexes(old(uuids.drawn)),
                                          uuids.hexes(old(uuids.drawn) + 1), now)
    ensures |g.spanId| == 12
    ensures TraceHeader !in request.headers ==> |g.traceId| == 24
  {
    var traceHex := uuids.Hex();
    g.traceId := GetOr(request.headers, TraceHeader, Repeat(Uid(traceHex), 2));
    var spanHex := uuids.Hex();
    g.spanId := Uid(spanHex);
    g.parentSpanId := Lookup(request.headers, SpanHeader);
    g.start := now;
    g.entered := true;
  }

  /**
   * `end_span`: log one record for the request, write the two correlation
   * headers onto the response, and hand the same response back.
   */
  method EndSpan(request: Request, g: RequestGlobals, response: Response, logger: Logger,
                 now: int, timestamp: string) returns (r: Response)
    requires g.entered
    requires logger.threshold <= InfoLevel
    modifies logger`lines, response`headers
    ensures r == response
    ensures logger.lines == old(logger.lines)
                            + [AsJson(BuildRecord(g.Context(), request.path, response.status, now, timestamp))]
    ensures response.headers == Propagate(old(response.headers), g.traceId, g.spanId)
    ensures response.status == old(response.status) && response.body == old(response.body)
  {
    var duration := DurationMs(g.start, now);
    var log := LogRecord(timestamp, Level, ServiceName, g.traceId, g.spanId, OrNone(g.parentSpanId),
                         duration, request.path, response.status, Message);
    logger.Info(AsJson(log));
    response.headers := response.headers[TraceHeader := g.traceId];
    response.headers := response.headers[SpanHeader := g.spanId];
    r := response;
  }

  /**
   * A downstream hop that takes this hop's response headers as its inbound
   * headers continues the same trace, under this hop's span as its parent.
   */
  lemma DownstreamHopContinuesTrace(inbound: Headers, traceHex: string, spanHex: string, start: int,
                                    outbound: Headers, nextTraceHex: string, nextSpanHex: string,
                                    nextStart: int, path: string, status: int, end: int, timestamp: string)
    requires IsUuidHex(spanHex)
    ensures var here := ResolveContext(inbound, traceHex, spanHex, start);
            var next := ResolveContext(Propagate(outbound, here.traceId, here.spanId),
                                       nextTraceHex, nextSpanHex, nextStart);
            var nextRecord := BuildRecord(next, path, status, end, timestamp);
            && nextRecord.traceId == here.traceId
            && nextRecord.parentSpanId == Some(here.spanId)
            && (TraceHeader in inbound ==> nextRecord.traceId == inbound[TraceHeader])
  {
  }
}
