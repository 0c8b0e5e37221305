# Orion observability core, modelled in Dafny

This project models three small components of the observability layer of the
Orion HTTP proxy's data plane, and proves what they promise:

- **Request-id policy engine** (`orion-tracing/src/request_id.rs`, module
  `RequestIds`). `RequestId` is a datatype with its accessors.
  `RequestId.FromRequest` validates an incoming `x-request-id` header.
  `RequestIdManager.Decide` is the decision table of `apply_policy` as a
  pure function. `RequestIdManager.ApplyPolicy` and `RequestIdManager.ApplyTo`
  edit a request's or a response's header map in place. The manager's
  `new` is the datatype constructor `RequestIdManager(generate, preserve,
  always_set)`. `PolicyScenarios` states the unit tests of request_id.rs
  as assertions that the verifier checks against the model.
- **Body-with-metrics completion state machine**
  (`orion-lib/src/body/body_with_metrics.rs`). `BodyFrames` holds the
  frame, poll-outcome and size-hint types, and a stand-in for the inner body.
  `MetricsEnabled` holds the instrumented variant: the shared `MetricsState`
  (a wrapping 64-bit counter, a single-use callback slot and a ghost log of
  callback calls), `TriggerOnComplete`, `DropGuard` and `BodyWithMetrics`.
  Its abstract value is a `Metrics` value. `Observe` and `Complete` are the
  effect of one poll and of one trigger, and `Replay` folds `Observe` over a
  run of polls. The lemmas about `Replay` state the whole-stream guarantees.
  `MetricsDisabled` holds the passthrough variant, which has the same
  class name, as in the source.
- **Span lifecycle holder** (`orion-tracing/src/span_state.rs`, module
  `SpanStates`). `SpanState` has two optional span slots. A ghost log records
  the order in which `end` ends spans, and each `Span` counts its ends.

Parameters stand for everything outside the core:
- `isUuid` is `HeaderValue::to_str` followed by `Uuid::parse_str`.
- `generated` is the value `generate_new_id` returns. `IsGeneratedId`
  describes what that value can be: 32 lower-case hex digits, or
  `"unknown-request-id"`.
- `tracing` is the build-time `tracing` feature.
- `classify` is `ResponseFlags::from((err, kind))`.
- The inner body is a script of steps. Each step gives a poll outcome and
  the end-of-stream flag and size hint the body reports after it.

## Model

| member | source | states |
|---|---|---|
| RequestIds.RequestId.AsRef | orion-tracing/src/request_id.rs:36-42 | the result is the value carried by either variant |
| RequestIds.RequestId.ToValue | orion-tracing/src/request_id.rs:63-68 | the result is the carried value for both variants, the same as `AsRef` |
| RequestIds.RequestId.PropagateRef | orion-tracing/src/request_id.rs:70-75 | the result is `Some` exactly for `Propagate`, and then carries the id's value |
| RequestIds.RequestId.InternalRef | orion-tracing/src/request_id.rs:77-82 | the result is `Some` exactly for `Internal`, and then carries the id's value |
| RequestIds.RequestId.FromRequest | orion-tracing/src/request_id.rs:45-61 | `None` exactly when the header is missing, is not a valid UUID, or is empty; otherwise `Propagate` of exactly the header value |
| RequestIds.MalformedIsAbsent | orion-tracing/src/request_id.rs:46-55 | a header value that fails UUID validation yields no incoming id, the same as no header |
| RequestIds.MalformedHeaderIsForwarded | orion-tracing/src/request_id.rs:123-125 | with `generate` and `preserve` both off, a valid incoming header is removed from the outbound request, while a malformed one, not being an incoming id, stays as it was |
| RequestIds.ApplyEdit | orion-tracing/src/request_id.rs:116-125 | every header other than `x-request-id` is unchanged; an insert sets it, a remove deletes it, keep leaves the map equal |
| RequestIds.RequestIdManager.Decide | orion-tracing/src/request_id.rs:100-132 | a preserved incoming id gives untouched headers and `Propagate(incoming)`, whatever `generate` is; otherwise `generate` inserts the generated id and gives `Propagate` of it; with neither, the header is removed exactly when an id came in; the id is `Propagate` iff `should_propagate`, else `Internal`; with `tracing` there is always an id; without it there is none exactly when nothing is preserved, `generate` is off and access logging is off; an inserted header always matches a `Propagate` result |
| RequestIds.RequestIdManager.ApplyPolicy | orion-tracing/src/request_id.rs:94-135 | the request's headers become the decision's edit applied to the old headers, the body is unchanged, and the returned id is the decision's id |
| RequestIds.RequestIdManager.ApplyTo | orion-tracing/src/request_id.rs:148-154 | the response gets `x-request-id` set to the id only when `always_set_request_id_in_response` holds and an id is given; otherwise the headers are unchanged; the body is never touched |
| RequestIds.GeneratedIdIsNotHyphenated | orion-tracing/src/request_id.rs:137-146 | a generated id, either 32 hex digits or the fallback, never equals a 36-character hyphenated UUID, so the id generated in the test at 214-223 differs from the incoming one |
| MetricsEnabled.Observe | orion-lib/src/body/body_with_metrics.rs:110-127 | a data frame adds its byte length to the counter, modulo 2^64; trailers and `Pending` change nothing; end and error disarm the slot and, if it was armed, call the callback once with the current counter and the default or classified flags |
| MetricsEnabled.WrapAdd | orion-lib/src/body/body_with_metrics.rs:115 | adding to the wrapping counter is the same as wrapping the unbounded byte total |
| MetricsEnabled.CompleteIsIdempotent | orion-lib/src/body/body_with_metrics.rs:59-65 | after one trigger the slot is empty, and every later trigger, whatever its flags, is a no-op |
| MetricsEnabled.ReplayKeepsSingleUse | orion-lib/src/body/body_with_metrics.rs:59-65 | over any run of polls the callback is either still in its slot or has been called exactly once; once called, its log never changes |
| MetricsEnabled.ReplayFromFresh | orion-lib/src/body/body_with_metrics.rs:80-127 | from `new` through any polls, the counter is the data-frame total modulo 2^64; the callback has fired iff an end or an error was polled, exactly once, with the bytes of the data frames before the first such outcome and that outcome's flags |
| MetricsEnabled.DropCompletesExactlyOnce | orion-lib/src/body/body_with_metrics.rs:53-57 | after any polls, dropping the guard leaves exactly one callback call: the earlier one if the stream ended or failed, otherwise one with the full byte total and the default flags |
| MetricsEnabled.MetricsState.constructor | orion-lib/src/body/body_with_metrics.rs:80-84 | a new state has counter 0, an armed slot and no calls |
| MetricsEnabled.TriggerOnComplete | orion-lib/src/body/body_with_metrics.rs:59-65 | the slot is taken; if it held the callback, the callback is called once with the counter's current value and the given flags |
| MetricsEnabled.DropGuard.Drop | orion-lib/src/body/body_with_metrics.rs:53-57 | dropping the guard triggers completion with the default flags |
| MetricsEnabled.BodyWithMetrics.New | orion-lib/src/body/body_with_metrics.rs:76-87 | a fresh state with counter 0 and an armed slot, shared by the wrapper and a fresh guard |
| MetricsEnabled.BodyWithMetrics.MapInto | orion-lib/src/body/body_with_metrics.rs:89-94 | the new wrapper carries the converted inner body with the same state and the same guard |
| MetricsEnabled.BodyWithMetrics.PollFrame | orion-lib/src/body/body_with_metrics.rs:105-128 | returns the inner body's outcome unchanged, errors included, leaves the inner body's end-of-stream flag and size hint as that poll sets them, and updates the shared state as `Observe` says |
| MetricsEnabled.BodyWithMetrics.IsEndStream | orion-lib/src/body/body_with_metrics.rs:130-132 | delegates to the inner body |
| MetricsEnabled.BodyWithMetrics.SizeHint | orion-lib/src/body/body_with_metrics.rs:134-136 | delegates to the inner body |
| MetricsEnabled.BodyWithMetrics.Drop | orion-lib/src/body/body_with_metrics.rs:67-73 | dropping the wrapper drops its guard field, which triggers completion with the default flags |
| MetricsDisabled.BodyWithMetrics.New | orion-lib/src/body/body_with_metrics.rs:156-161 | wraps the inner body and keeps nothing else |
| MetricsDisabled.BodyWithMetrics.MapInto | orion-lib/src/body/body_with_metrics.rs:163-168 | wraps the converted inner body |
| MetricsDisabled.BodyWithMetrics.PollFrame | orion-lib/src/body/body_with_metrics.rs:175-181 | returns exactly the inner body's outcome, the same one the instrumented variant returns |
| MetricsDisabled.BodyWithMetrics.IsEndStream | orion-lib/src/body/body_with_metrics.rs:183-186 | delegates to the inner body |
| MetricsDisabled.BodyWithMetrics.SizeHint | orion-lib/src/body/body_with_metrics.rs:188-191 | delegates to the inner body |
| SpanStates.SpanState.constructor | orion-tracing/src/span_state.rs:28-30 | the server slot holds the given span and the client slot is empty |
| SpanStates.SpanState.End | orion-tracing/src/span_state.rs:32-44 | each populated slot's span is ended exactly once, the server span before the client span; neither slot is cleared, so a second call ends them again; with both slots empty nothing changes |

`EndedStreamScenario`, `FailedStreamScenario` and `AbandonedStreamScenario`
are verified assertions about concrete streams through the instrumented
body. In each, the callback fires exactly once with the expected byte count.
`EndScenarios` states the same kind of assertions for `SpanState.End`.

## Left out

- Concurrency: `Arc` is a shared object reference. The `parking_lot::Mutex`
  around the slot and the span slots is gone, because the model is
  sequential. `AtomicU64` with `Relaxed` ordering is a plain counter that
  wraps modulo 2^64 like `fetch_add`.
- Async polling: `Pin` and `Context` are left out. The inner body is a script
  of steps. Each step fixes a poll's outcome and the end-of-stream flag and
  size hint after it. An exhausted script reports the end of the stream and
  keeps its flag and hint.
- UUID parsing (`Uuid::parse_str`) and `HeaderValue::to_str` are the
  parameter `isUuid`. The random v4 id and the `HeaderValue::from_str`
  fallback are the parameter `generated`.
- RequestIds.RequestIdManager.Decide: a fresh id differs from the incoming
  one only where that can be shown. The test's hyphenated incoming id is
  covered by `GeneratedIdIsNotHyphenated`. An incoming id in the simple
  32-digit form could in principle equal a random one, so no general claim
  is made.
- Header names are plain strings compared case-sensitively. `http::HeaderName`
  is always lower-case, so callers of the model must use lower-case names
  such as `x-request-id`; a key like `"X-Request-ID"` would count as a
  different header.
- Header maps hold one value per name. `http::HeaderMap` can hold several,
  but `insert` and `remove` replace or drop all of them, and `get` reads the
  first. Header values are strings, not bytes.
- The request and the response keep only their headers and body. The method,
  URI and version are not part of this model. `apply_policy` takes the
  request by value and returns it; here it edits the request object in
  place.
- `map_into` converts the inner body with `Into`. Here the converted body is
  passed in, and it has the same error type. Rust's `map_into(self)` consumes
  the original wrapper; here the original object stays usable. Using it again
  acts like a second owner of the same state, such as a cloned `DropGuard`.
- The `ResponseFlags` taxonomy and `ResponseFlags::from` are external: flags
  are an opaque value and `classify` is a parameter. `BodyKind` is a
  two-valued key.
- The completion closure itself is not modelled. Its calls are the ghost log
  `fired`, and the disabled variant's ignored callback argument is dropped.
- `info!` logging, and the export done by opentelemetry's `span.end()` beyond
  counting ends, are left out.
- orion-lib/src/tracing_attributes.rs and orion-lib/src/metrics.rs are not
  part of this model. They forward to external span, counter and histogram
  APIs.
