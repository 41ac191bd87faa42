/**
 * The correlation hooks of app.py: `start_span` runs before the login
 * handler, `end_span` after it, and the record goes to standard output
 * (`print(json.dumps(log))`), from where a log shipper collects it.
 */
module App {
  import opened Tracing

  /** Standard output of the process, one JSON object per printed line. */
  class Stdout {
    var lines: seq<JsonObject>

    constructor ()
      ensures lines == []
    {
      lines := [];
    }

    /** `print(json.dumps(line))`. */
    method Print(line: JsonObject)
      modifies this`lines
      ensures lines == old(lines) + [line]
    {
      lines := lines + [line];
    }
  }

  /**
   * `start_span`: resolve the trace context from the inbound headers and
   * record the entry time on `g`. Both `uid()` calls draw from the stream,
   * the first one even when the request carries its own trace id.
   */
  method StartSpan(request: Request, g: RequestGlobals, uuids: UuidSource, now: int)
    requires uuids.Valid()
    modifies g, uuids`drawn
    ensures uuids.drawn == old(uuids.drawn) + 2
    ensures g.entered
    ensures g.Context() == ResolveContext(request.headers, uuids.hexes(old(uuids.drawn)),
                                          uuids.hexes(old(uuids.drawn) + 1), now)
    ensures |g.spanId| == 12
    ensures TraceHeader !in request.headers ==> |g.traceId| == 24
  {
    var traceHex := uuids.Hex();
    g.traceId := GetOr(request.headers, TraceHeader, Repeat(Uid(traceHex), 2));
    var spanHex := uuids.Hex();
    g.spanId := Uid(spanHex);
    g.parentSpanId := Lookup(request.headers, SpanHeader);
    g.start := now;
    g.entered := true;
  }

  /**
   * `end_span`: print one record for the request, write the two correlation
   * headers onto the response, and hand the same response back. `now` is the
   * exit time and `timestamp` the formatted completion time.
   */
  method EndSpan(request: Request, g: RequestGlobals, response: Response, stdout: Stdout,
                 now: int, timestamp: string) returns (r: Response)
    requires g.entered
    modifies stdout`lines, response`headers
    ensures r == response
    ensures stdout.lines == old(stdout.lines)
                            + [AsJson(BuildRecord(g.Context(), request.path, response.status, now, timestamp))]
    ensures response.headers == Propagate(old(response.headers), g.traceId, g.spanId)
    ensures response.status == old(response.status) && response.body == old(response.body)
  {
    var duration := DurationMs(g.start, now);
    var log := LogRecord(timestamp, Level, ServiceName, g.traceId, g.spanId, OrNone(g.parentSpanId),
                         duration, request.path, response.status, Message);
    stdout.Print(AsJson(log));
    response.headers := response.headers[TraceHeader := g.traceId];
    response.headers := response.headers[SpanHeader := g.spanId];
    r := response;
  }

  /**
   * One request through the two hooks in the order Flask runs them around
   * the login handler, whose response is `handled`: two draws are made,
   * exactly one line is printed, it is the record of this request, and the
   * response carries the record's trace and span ids over its other headers.
   */
  method HandleRequest(request: Request, uuids: UuidSource, stdout: Stdout, handled: Response,
                       entry: int, exit: int, timestamp: string) returns (response: Response)
    requires uuids.Valid()
    modifies uuids`drawn, stdout`lines, handled`headers
    ensures response == handled
    ensures response.status == old(handled.status) && response.body == old(handled.body)
    ensures uuids.drawn == old(uuids.drawn) + 2
    ensures var ctx := ResolveContext(request.headers, uuids.hexes(old(uuids.drawn)),
                                      uuids.hexes(old(uuids.drawn) + 1), entry);
            && stdout.lines == old(stdout.lines)
                               + [AsJson(BuildRecord(ctx, request.path, old(handled.status), exit, timestamp))]
            && response.headers == Propagate(old(handled.headers), ctx.traceId, ctx.spanId)
    ensures var rec := FromJson(stdout.lines[|stdout.lines| - 1]);
            && rec.Some?
            && rec.value.traceId == response.headers[TraceHeader]
            && rec.value.spanId == response.headers[SpanHeader]
            && |rec.value.spanId| == 12
            && rec.value.parentSpanId == OrNone(Lookup(request.headers, SpanHeader))
            && rec.value.statusCode == response.status
            && rec.value.path == request.path
            && (entry <= exit ==> rec.value.durationMs >= 0)
            && (TraceHeader in request.headers ==> rec.value.traceId == request.headers[TraceHeader])
            && (TraceHeader !in request.headers ==> |rec.value.traceId| == 24)
  {
    var g := new RequestGlobals();
    StartSpan(request, g, uuids, entry);
    ghost var rec := BuildRecord(g.Context(), request.path, handled.status, exit, timestamp);
    response := EndSpan(request, g, handled, stdout, exit, timestamp);
    JsonRoundTrip(rec);
  }
}
