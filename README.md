# Request correlation for the login service, in Dafny

The login service wraps its single endpoint in a pair of Flask hooks that
correlate requests across services. It has two entry points, app.py and
instrumentation.py, and each carries its own copy of these hooks:

- `uid()` takes the first twelve characters of a fresh `uuid4().hex`.
- `start_span` (before the handler) fills the request-scoped `g`:
  - the trace id is the inbound `X-Trace-ID` header verbatim, or, when that
    header is absent, a fresh token written twice;
  - the span id is always a fresh token;
  - the parent span id is the inbound `X-Span-ID` header, if any;
  - the entry time is recorded.
- `end_span` (after the handler):
  - computes the elapsed time in whole milliseconds;
  - builds a ten-key log record;
  - writes it once to the log sink (standard output in app.py, the `myapp`
    file logger in instrumentation.py);
  - overwrites the `X-Trace-ID` and `X-Span-ID` response headers with the
    request's trace and span ids;
  - returns the same response.

The project has three modules:

- `Tracing` (tracing.dfy) holds the logic both files share, as functions:
  - `Uid`, `Repeat` (Python's `str * int`), `ResolveContext` (what
    `start_span` computes);
  - `DurationMs`, `OrNone` (Python's `x or None`), `BuildRecord`, `AsJson`
    (the dictionary handed to `json.dumps`) with its inverse `FromJson`;
  - `Propagate` (the two response-header assignments).

  It also holds the objects the hooks touch: the `uuid4().hex` stream
  (`UuidSource`), Flask's `g` (`RequestGlobals`) and the `Response` with its
  mutable header map.
- `App` (app.py) and `Instrumentation` (instrumentation.py) each hold the
  two hooks as methods over those objects and over their own log sink. Each
  method's postcondition ties the new state to the `Tracing` functions:
  - `g` holds `ResolveContext(...)`;
  - the sink is the old sink plus `AsJson(BuildRecord(...))`;
  - the headers are `Propagate(old headers, ...)`.

Randomness and the clock are inputs. `UuidSource` hands out the `uuid4().hex`
strings in order and counts the draws. Times are integer microseconds. The
completion timestamp is an opaque string.

Two behaviours of the code are kept as written:

- The default argument `uid() * 2` of `headers.get` is evaluated even when
  the header is present. Every `start_span` therefore draws two values from
  the stream (`StartSpan` ensures `drawn == old(drawn) + 2`), and the span id
  always comes from the second draw.
- The comment on app.py:95 (and instrumentation.py:30) says the synthesised
  trace id has 32 characters. The code produces a 12-character token twice,
  which is 24 characters. The model follows the code: `ResolveContext`
  proves length 24, with equal halves.

Further behaviours of the code that the model keeps:

- `end_span` updates no metric.
- An empty inbound `X-Trace-ID` is continued as it is.
- An empty inbound `X-Span-ID` is kept on `g` but logged as null.
- The elapsed time comes from the wall clock and can be negative; it is then
  truncated toward zero.

## Model

| member | source | states |
|---|---|---|
| Tracing.Prefix | app.py:91 | `hex[:12]` is the prefix of the string of length min(12, len), the whole string when shorter |
| Tracing.Uid | app.py:90-91 | a token is a prefix of the drawn hex string; for a `uuid4().hex` value it is exactly its first 12 characters, all lower-case hex digits |
| Tracing.Repeat | app.py:95 | `s * n` has length n·\|s\| (0 when n ≤ 0) and, for n > 0, begins with s |
| Tracing.RepeatShift | app.py:95 | `s * n` is periodic: each character equals the one \|s\| places earlier |
| Tracing.RepeatTwice | app.py:95 | `t * 2` is t followed by t |
| Tracing.Lookup | app.py:97 | `headers.get(name)` is present exactly when the header is, and then holds its value |
| Tracing.GetOr | app.py:95 | `headers.get(name, default)` is the header's value when present, the default otherwise |
| Tracing.ResolveContext | app.py:93-98 | a present `X-Trace-ID` is continued verbatim (even empty); an absent one gives a 24-character lower-hex id whose two halves both equal the first draw's 12-character prefix; the span id is the second draw's token (12 lower-hex characters) whatever the headers; the parent is present exactly when `X-Span-ID` is and equals it; start is the entry time |
| Tracing.SpanIdIgnoresHeaders | app.py:96 | two requests with any headers and any first draw get the same span id from the same second draw |
| Tracing.DurationMs | app.py:102 | the duration is the elapsed milliseconds truncated toward zero: non-negative with d·1000 ≤ elapsed < d·1000+1000 when the clock did not go back, non-positive with d·1000−1000 < elapsed ≤ d·1000 when it did |
| Tracing.DurationMonotonic | app.py:102 | a later exit time never gives a shorter duration |
| Tracing.OrNone | app.py:109 | `x or None` keeps a present non-empty string and gives None for an absent or empty one |
| Tracing.BuildRecord | app.py:102-114 | the record has level INFO, service serviciu-login and message "request completed"; trace and span ids from the context; a parent exactly when the inbound span header was present and non-empty; a duration that is non-negative when exit ≥ entry; the response status and the request path |
| Tracing.RecordKeysCount | app.py:103-114 | the record's key set has exactly ten distinct keys |
| Tracing.AsJson | app.py:103-114 | the logged object has exactly the ten record keys; trace and span ids are strings, duration and status integers, and the parent span is null exactly when the record has none |
| Tracing.FromJson | app.py:115 | not a model of that line (the program never parses its output): the reader of a printed object that the round-trip lemmas use as the inverse of `AsJson`; it succeeds only when all ten keys are there |
| Tracing.JsonRoundTrip | app.py:103-115 | every record reads back unchanged from its logged object |
| Tracing.JsonRoundTripBack | app.py:103-115 | an object with exactly the ten keys that reads back as a record is that record's logged object |
| Tracing.Propagate | app.py:118-119 | the outbound headers are the old ones plus the two correlation headers, which hold the trace and span ids and replace earlier values; every other header is unchanged |
| Tracing.InboundTraceSurvives | app.py:95-119 | an inbound trace id reaches both the record and the outbound `X-Trace-ID` unchanged, and the outbound `X-Span-ID` is the record's span id |
| Tracing.NewTraceScenario | app.py:93-114 | a request without correlation headers gets a 24-character trace id, a 12-character span id and a null `parent_span_id` |
| Tracing.ContinuedTraceScenario | app.py:93-114 | a request with `X-Trace-ID: abc123` and `X-Span-ID: parent01` is logged under trace abc123 with parent parent01 and a span id different from parent01 |
| Tracing.UuidSource.Hex | app.py:91 | each `uuid4().hex` is the next value of the stream, of the `uuid4().hex` shape, and advances the draw count by one |
| App.Stdout.Print | app.py:115 | printing appends exactly the given line to standard output |
| App.StartSpan | app.py:93-98 | `g` holds `ResolveContext` of the inbound headers, the two next draws and the entry time; exactly two draws are made, whether or not the trace header is present; span id of 12 characters, synthesised trace id of 24 |
| App.EndSpan | app.py:100-120 | exactly one line, the JSON object of `BuildRecord` for this request, is appended to standard output; the response headers become `Propagate` of the old ones; status and body are unchanged; the same response is returned |
| App.HandleRequest | app.py:85-120 | around the handler, exactly two draws are made; standard output gains exactly one line, the JSON object of `BuildRecord` over `ResolveContext` of the inbound headers and the two draws; the response headers are `Propagate` of the handler's headers (every other header kept); status and body unchanged; the printed line reads back as a record whose trace and span ids are the response's correlation headers, whose parent is the inbound non-empty `X-Span-ID` or null, whose duration is non-negative when exit ≥ entry, and whose trace id is the inbound one or a 24-character fresh one |
| Instrumentation.Logger.constructor | instrumentation.py:15-21 | the `myapp` logger starts empty and lets INFO records through |
| Instrumentation.Logger.Info | instrumentation.py:50 | an INFO call appends exactly the given line when INFO passes the threshold, and nothing otherwise |
| Instrumentation.StartSpan | instrumentation.py:28-33 | `g` holds `ResolveContext` of the inbound headers, the two next draws and the entry time; exactly two draws are made either way; span id of 12 characters, synthesised trace id of 24 |
| Instrumentation.EndSpan | instrumentation.py:35-55 | with the logger letting INFO through, exactly one line, the JSON object of `BuildRecord` for this request, is appended to the log; the response headers become `Propagate` of the old ones; status and body are unchanged; the same response is returned |
| Instrumentation.DownstreamHopContinuesTrace | instrumentation.py:28-55 | a next hop whose inbound headers are this hop's response headers logs this hop's trace id (the original inbound one, when there was one) and this hop's span id as its parent |

## Left out

- Flask plumbing is not modelled: routing, the `g` proxy, hook registration,
  and the order Flask runs hooks in. `HandleRequest` stands for one request's
  pass through the hooks.
- The OpenTelemetry, Jaeger and Prometheus setup and the demo metric calls
  (app.py:28-57, app.py:65-81) are not modelled. They are library
  configuration.
- The metrics servers (`start_http_server`) and the Logstash TCP handler are
  not modelled. They are network transports.
- Creating the log directory and the file handler (instrumentation.py:12-21)
  is file-system I/O. Only the handler's INFO threshold is kept, in `Logger`.
- The login handler is not modelled. It sleeps for a hash-derived time; its
  response is an input.
- The randomness of `uuid4` is not modelled. The hex strings are an input
  stream, so the uniqueness of trace and span ids is not stated.
- Floating-point `time.time()` arithmetic is not modelled. Times are integer
  microseconds, and the float rounding of `(end - start) * 1000` before
  `int()` is not captured.
- The completion timestamp string is an input. `time.strftime` with `%f`
  (app.py:104) and `isoformat() + "Z"` (instrumentation.py:39) are not
  modelled.
- The byte layout of `json.dumps` is not modelled. A log line is the JSON
  object handed to it.
- Handler exceptions are not modelled. The hooks have no try/finally, and
  only the normal exit path is modelled.
- The `app.run` bootstrap is not modelled.
- Werkzeug header names are case-insensitive, but header maps here compare
  names exactly.
- Multi-valued headers are not modelled.
