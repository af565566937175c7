# Metrics registry and OTLP export of the pizza service

This project models the metrics module of the pizza service (`src/metrics.js`).
The module keeps one process-wide `metrics` record:

- request counts per HTTP method, created with the keys GET, POST, PUT and DELETE;
- an `activeUsers` gauge;
- success and failure counters for authentication attempts;
- `system`, `pizzas` and `latency` fields that are declared but never updated.

Request handling and authentication call small trackers that update the
record in place. Every ten seconds a timer reads the record and, for each
series, builds the JSON body of an OpenTelemetry ExportMetricsServiceRequest
(one cumulative, monotonic Sum data point) and posts it to Grafana.

The model has three modules:

- `Js` (`js.dfy`): the JavaScript values involved. A plain object is its own
  keys in enumeration order plus the value under each key. `Get` is `o[k]`,
  where a missing key reads as `undefined` (`None`). `Put` is `o[k] = v`. A
  number is an integer count or NaN, because `undefined + 1` is NaN.
- `Otlp` (`otlp.dfy`): the request body `sendMetricToGrafana` builds.
  - `Payload` is that body as a pure function.
  - `SendMetric` is the method that builds it as the source does, with a loop
    that pushes one attribute entry per key.
  - `SinglePoint` reads a body back; it is the partner of `Payload`.
- `Metrics` (`metrics.dfy`): the record and its trackers.
  - `State` and `Step` describe the record as a value and its transitions.
  - `Run` applies a sequence of calls; `Invariant` is what every reachable
    record satisfies.
  - The class `Registry` holds the same fields and updates them in place.
    Each of its methods promises exactly the `Step` transition.
  - `TickSends` and `TickRequests` state what one timer tick sends.
    `Registry.Tick` is the loop that builds those bodies.

The clock is a parameter. `Date.now()` at the i-th send of a tick is
`clock(i)`, and the deployment's `source` tag is a parameter too.

Two behaviours of the code are worth stating outright:

- A request whose method is not GET, POST, PUT or DELETE is not dropped: the
  code evaluates `undefined + 1` and stores NaN under a new key, which later
  ticks also export. `UnknownRequestStoresNaN` states this case.
- There are no latency windows, pizza trackers, or CPU and memory export: the
  `system`, `pizzas` and `latency` fields are never written, and the tick
  exports only the method counts, the gauge and the auth counters.

## Model

| member | source | states |
|---|---|---|
| Js.PlusOne | src/metrics.js:33 | `x += 1` on a slot gives an integer exactly when the slot held an integer, and then that integer plus one; `undefined + 1` and `NaN + 1` give NaN |
| Js.Get | src/metrics.js:33 | reading a key gives a value exactly when the key is one of the object's own keys; otherwise `undefined` |
| Js.Put | src/metrics.js:33 | assigning a key keeps an existing key in place or appends a new one last; the key reads back the new value and every other key reads as before |
| Otlp.WithSource | src/metrics.js:85 | `{...attributes, source}`: `source` reads as the configured source, whatever the caller passed, and every other key reads as the caller's |
| Otlp.Entries | src/metrics.js:115-120 | the pushed attribute list has one entry per key pushed |
| Otlp.EntryAt | src/metrics.js:116-119 | the i-th pushed entry is `{key, value: {stringValue}}` for the i-th key and the value stored under it |
| Otlp.EntriesAgree | src/metrics.js:115-120 | the entries depend only on the values stored under the keys listed |
| Otlp.SendMetric | src/metrics.js:84-120 | the method that merges in `source`, pushes one entry per merged key into the attribute list and wraps it in the envelope yields exactly `Payload` |
| Otlp.Payload | src/metrics.js:84-120 | the body built for one send: reading it back gives one resource, scope, metric and data point with unit "1", cumulative temporality and isMonotonic set, carrying the metric name, the value as `asInt`, `timeUnixNano` = clock reading × 1000000, and the merged attribute list |
| Otlp.EnvelopeRoundTrip | src/metrics.js:87-113 | reading the single data point back from the envelope gives exactly the name, value, timestamp and attributes put in |
| Otlp.EntriesKeys | src/metrics.js:115-120 | the keys of the pushed entries are exactly the keys iterated, in order |
| Otlp.AttributeOrder | src/metrics.js:115-120 | the attribute keys are the caller's keys in their order, then `source` unless the caller already had it |
| Otlp.AttributeKeysDistinct | src/metrics.js:115-120 | no attribute key appears twice and no caller key is dropped |
| Otlp.AttributeValues | src/metrics.js:85 | the `source` entry always carries the configured source, overriding a caller's `source`; every other entry carries the caller's value |
| Otlp.EmptyAttributes | src/metrics.js:85 | with `{}` as attributes the list is exactly the one `source` entry |
| Otlp.SourceLastWhenAbsent | src/metrics.js:85 | a caller without `source` gets its own entries unchanged, then the `source` entry last |
| Metrics.MethodCount | src/metrics.js:5-10 | in a reachable record each standard method holds a non-negative integer count |
| Metrics.Initial | src/metrics.js:4-29 | the record as created: its method map has exactly the keys GET, POST, PUT and DELETE, all at 0; the gauge and both auth counters are 0; the invariant holds |
| Metrics.Step | src/metrics.js:31-54 | the record after one tracker call: a request puts `PlusOne` of the old slot under its method, the user calls move the gauge by one (decrement floored at 0), each auth call raises its own counter; each call changes only its own field, and `system`, `pizzas` and `latency` never change |
| Metrics.StepKeepsInvariant | src/metrics.js:31-54 | every tracker keeps the invariant: standard methods first and counted, counts and gauge non-negative |
| Metrics.RunKeepsInvariant | src/metrics.js:31-54 | any sequence of tracker calls keeps the invariant |
| Metrics.ActiveUsersNeverNegative | src/metrics.js:38-46 | from the initial record the gauge is never negative, whatever the calls |
| Metrics.DeactivateFloorsAtZero | src/metrics.js:42-46 | decrementing at zero changes nothing; above zero it lowers the gauge by exactly one and changes nothing else |
| Metrics.ActivateDeactivateInverse | src/metrics.js:38-46 | increment then decrement restores the record; decrement then increment does too when the gauge is positive |
| Metrics.AuthTrackersOwnTheirCounter | src/metrics.js:48-54 | each auth tracker raises only its own counter, by exactly one; no other field changes |
| Metrics.StandardRequestCounts | src/metrics.js:33 | a request with a standard method raises only that method's count, by one; the keys and the rest of the record stay |
| Metrics.UnknownRequestStoresNaN | src/metrics.js:33 | a request with a method not in the map appends that method as the last key, holding NaN |
| Metrics.AuthCountersCountEvents | src/metrics.js:48-54 | over any sequence of calls each auth counter grows by exactly the number of its events |
| Metrics.StepCount | src/metrics.js:33 | one call raises a standard method's count by one exactly when it is a request for that method |
| Metrics.RequestsCountEvents | src/metrics.js:31-35 | over any sequence of calls a standard method's count grows by exactly the number of its requests |
| Metrics.StandardTrafficKeepsKeys | src/metrics.js:31-35 | requests with standard methods only leave the method map with exactly its four keys |
| Metrics.TickSends | src/metrics.js:57-67 | the sends of one tick: one `methods` send per method key in key order with `{method}`, then `activeUsers` with `{}`, then `authAttemps` success and failure, so three more sends than method keys; the tick's order and values are stated by `TickLeadsWithStandardMethods` and `TickAfterStandardTraffic` |
| Metrics.TickOfStandardRecord | src/metrics.js:57-67 | with the four standard keys, a tick makes exactly seven sends in the order GET, POST, PUT, DELETE, activeUsers, success, failure, each with its value at tick time |
| Metrics.TickLeadsWithStandardMethods | src/metrics.js:58-60 | in every reachable record the tick opens with GET, POST, PUT and DELETE in that order, each with its count |
| Metrics.AuthFromInitial | src/metrics.js:48-54 | from the initial record each auth counter equals the number of its events |
| Metrics.CountFromInitial | src/metrics.js:31-35 | from the initial record a standard method's count equals the number of its requests |
| Metrics.KeysAfterStandardTraffic | src/metrics.js:4-35 | from the initial record, standard-method traffic leaves exactly the four keys |
| Metrics.TickAfterStandardTraffic | src/metrics.js:57-67 | after any standard traffic from the initial record, a tick makes exactly seven sends, each carrying the number of events of its series |
| Metrics.TickRequestsCarrySource | src/metrics.js:57-67 | every body a tick builds has one data point with its series' name and value, the i-th clock reading in nanoseconds, and the configured source among its attributes |
| Metrics.Registry.constructor | src/metrics.js:4-29 | the record starts as the initial record and satisfies the invariant |
| Metrics.Registry.RequestTracker | src/metrics.js:31-35 | counts the request under its method as `Step` does, keeps the invariant, then calls the `next` callback exactly once (its call counter rises by one) |
| Metrics.Registry.IncrementActiveUsers | src/metrics.js:38-40 | raises the gauge by one as `Step` does and keeps the invariant |
| Metrics.Registry.DecrementActiveUsers | src/metrics.js:42-46 | lowers the gauge by one only when it is positive, as `Step` does, and keeps the invariant |
| Metrics.Registry.TrackAuthSuccess | src/metrics.js:48-50 | raises the success counter by one as `Step` does and keeps the invariant |
| Metrics.Registry.TrackAuthFailure | src/metrics.js:52-54 | raises the failure counter by one as `Step` does and keeps the invariant |
| Metrics.Registry.Tick | src/metrics.js:57-67 | the loop over the method keys and the three following sends build exactly `TickRequests` of the current record, and leave the record unchanged |

## Left out

- The `fetch` POST, its response handling and the console logging (src/metrics.js:122-136): network I/O and fire-and-forget promises. `Registry.Tick` and `Otlp.SendMetric` return the bodies they would post.
- JSON serialization of the body: the model stops at the structured value. In particular, NaN would be written as `null`, and that is not modelled.
- The `setInterval` scheduling and its 10000 ms period (src/metrics.js:57, 67): timers and event-loop interleaving are not modelled. Only the tick body is.
- `Date.now()` (src/metrics.js:100): it is the parameter `clock`, the i-th reading during a tick being `clock(i)`.
- `getCpuUsagePercentage` and `getMemoryUsagePercentage` (src/metrics.js:70-81): they read OS values and do floating-point arithmetic with `toFixed`, and nothing calls them.
- `config` loading (src/metrics.js:1): `source` is a parameter. The endpoint URL and API key are used only by `fetch`.
- The `system`, `pizzas` and `latency` fields are carried but never changed, because the code never changes them.
- JavaScript numbers are doubles. Counts are unbounded integers here, and `timeUnixNano` is the exact product, not rounded above 2^53.
- JavaScript enumerates integer-like keys ("0", "1", …) before other keys. Object keys here keep plain insertion order, which matches JavaScript for every key the module creates except a request whose method name is integer-like.
- Keys that name inherited properties (`req.method` equal to `"constructor"` or `"__proto__"`) read as `undefined` here. In JavaScript they would reach the prototype.
- What Express's `next` callback does is not modelled: it is an object that counts its calls.
- The route handlers that call the trackers, and the HTTP and database integration tests, are not part of this model.
