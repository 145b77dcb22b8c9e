# HTTP server metrics middleware, modelled in Dafny

This project models the Prometheus instrumentation middleware for HTTP servers in
`go/go-service/transport/http/metrics/prometheus/server.go`:

- `ServerMetrics` and its five vectors: `started`, `handled`, `received`, `sent` and the
  latency histogram.
- The instrumenting `handler` that `ServerMetrics.Handler` wraps around an inner handler.
- The status-capturing `responseWriter` decorator.
- The per-request `serverReporter`.

For every request, `ServeHTTP` derives the label pair (decoded URL path `req.URL.Path`, lower-cased method).
A health-check path goes straight to the inner handler and is not counted. Any other
request is counted as started and as received. The inner handler then runs against a
decorator whose status starts at 200 and is overwritten by every `WriteHeader` call. When
the inner handler returns, the request is counted as handled under the decimal code label
of the captured status, and one latency observation is added. A `sent` message is counted
only when the captured status is between 200 and 299. There is no deferred call: a
panicking inner handler skips `Handled` and `SentMessage`.

Files and modules:

- `strings.dfy` (`Strings`): lower-casing of the method label, and `Itoa` for the code
  label with its inverse `Atoi`.
- `counters.dfy` (`Counters`): the counter values as maps from label tuples to counts, and
  the effect of each reporter step on them. It also defines the total of `handled` over
  all codes.
- `http.dfy` (`Http`): the request, the inner handler's behaviour, the wrapped writer, the
  decorator and the last-write-wins rule.
- `accounting.dfy` (`Accounting`): `Serve`, the effect of one request on the counters, and
  lemmas over single requests and over sequences of requests.
- `server.dfy` (`Server`): the classes `ServerMetrics`, `ServerReporter` and `Handler`.
  Their methods update fields in place and are proved equal to the functions above.

Modelling choices:

- What the inner `http.Handler` does on one call is a `HandlerRun`. It lists the statuses
  the handler passes to `WriteHeader`, in order, and says whether the handler then panics.
- The lemmas over sequences of requests take a sequence of `Exchange`s, each a request
  paired with its own `HandlerRun`. Two calls with the same path and method may therefore
  end differently.
- The `Handler` class holds the inner handler as a function from the request to a
  `HandlerRun`; each `ServeHTTP` call is stated for the run that function gives.
- The health-path test is a function value given to the `Handler`.
- The wrapped `http.ResponseWriter` is a `Recorder` that keeps the list of statuses
  forwarded to it.
- The histogram is kept as its number of observations per label pair.

The code has no deferred or recovering call around the inner handler, and it does not look
at cancellation. So the model makes no claim that `Handled` runs on an abnormal exit, and it
has no separate outcome for cancelled requests. The service label is the decoded URL path, so
the set of label values is not bounded by the code.

## Model

| member | source | states |
|---|---|---|
| `Strings.ToLower` | go/go-service/transport/http/metrics/prometheus/server.go:125 | The method label has the same length as the method and contains no upper-case letter. Exactly the upper-case letters change, each to its lower-case form. |
| `Strings.ToLowerIdempotent` | go/go-service/transport/http/metrics/prometheus/server.go:125 | Lower-casing an already lower-cased method label changes nothing. |
| `Strings.ToLowerFixed` | go/go-service/transport/http/metrics/prometheus/server.go:125 | A method is its own label if and only if it contains no upper-case letter. |
| `Strings.Itoa` | go/go-service/transport/http/metrics/prometheus/server.go:187 | The code label is non-empty. It starts with '-' exactly for negative codes, and every other character is a decimal digit. A non-negative code's label starts with a digit. It has no leading zero: the only label starting with '0' is "0", and a negative label never has '0' after its '-'. |
| `Strings.NatDigits` | go/go-service/transport/http/metrics/prometheus/server.go:187 | The digits of a non-negative code are decimal digits. There is at least one, and there is no leading zero: the only digit string starting with '0' is "0". |
| `Strings.ItoaRoundTrip` | go/go-service/transport/http/metrics/prometheus/server.go:187 | Reading the code label back as a decimal number gives the status code. |
| `Strings.ItoaInjective` | go/go-service/transport/http/metrics/prometheus/server.go:187 | Two status codes get the same code label if and only if they are equal. |
| `Strings.SuccessRangeIsTwoXXLabel` | go/go-service/transport/http/metrics/prometheus/server.go:141-144 | A status passes the 200..299 test if and only if its code label has three characters and starts with '2'. |
| `Counters.Inc` | go/go-service/transport/http/metrics/prometheus/server.go:170 | `WithLabelValues(k).Inc()` raises the child under k by exactly one and no other child changes. No count decreases. |
| `Counters.Start` | go/go-service/transport/http/metrics/prometheus/server.go:168-173 | Creating a reporter raises `started` under its label pair by one. No other counter changes. |
| `Counters.Receive` | go/go-service/transport/http/metrics/prometheus/server.go:176-178 | `ReceivedMessage` raises `received` under the pair by one. No other counter changes. |
| `Counters.Send` | go/go-service/transport/http/metrics/prometheus/server.go:181-183 | `SentMessage` raises `sent` under the pair by one. No other counter changes. |
| `Counters.Handle` | go/go-service/transport/http/metrics/prometheus/server.go:186-189 | `Handled(code)` raises `handled` under (service, method, Itoa(code)) by one and adds one observation under (service, method). Nothing else changes. |
| `Counters.CodeTotalInc` | go/go-service/transport/http/metrics/prometheus/server.go:187 | One increment of `handled` under some code raises the total over all codes under that label pair by one. Totals under other pairs do not change. |
| `Http.Overwrite` | go/go-service/transport/http/metrics/prometheus/server.go:155-158 | Folding `WriteHeader` calls one by one into the status field gives the argument of the last call. With no call, the start value (200 at line 136) stays. |
| `Http.IsSuccess` | go/go-service/transport/http/metrics/prometheus/server.go:142 | The 200..299 test holds exactly for the statuses whose code label has three characters and starts with '2'. |
| `Accounting.LabelsOf` | go/go-service/transport/http/metrics/prometheus/server.go:125 | The service label is the decoded URL path (`req.URL.Path`). The method label has the method's length, turns each upper-case letter into its lower-case form, and keeps every other character. |
| `Http.ResponseWriter.constructor` | go/go-service/transport/http/metrics/prometheus/server.go:136 | The decorator wraps the caller's writer and its status starts at 200. |
| `Http.ResponseWriter.WriteHeader` | go/go-service/transport/http/metrics/prometheus/server.go:155-158 | The captured status becomes the argument. The same status is forwarded once to the wrapped writer. |
| `Http.Run` | go/go-service/transport/http/metrics/prometheus/server.go:128 | On the health path, the inner handler's statuses reach the caller's writer unchanged and in order. A panic propagates. |
| `Http.RunDecorated` | go/go-service/transport/http/metrics/prometheus/server.go:137 | Through the decorator, every status is forwarded unchanged and in order. The captured status is the fold of the writes over the start value. |
| `Accounting.Serve` | go/go-service/transport/http/metrics/prometheus/server.go:123-145 | A health path changes no counter. Any other request raises `started` and `received` under (path, lower-cased method) by one. If the handler returns, `handled` rises by one under the captured status's label and one observation is added. `sent` rises by one if and only if the handler returned and the status is 2xx. No counter decreases. |
| `Accounting.EmptyConsistent` | go/go-service/transport/http/metrics/prometheus/server.go:35-71 | Freshly created metrics satisfy the accounting rule. |
| `Accounting.ServeKeepsConsistent` | go/go-service/transport/http/metrics/prometheus/server.go:133-144 | Serving one request keeps, for every label pair, `started == received`, the total of handled over all codes `== observations`, and `sent <= observations <= started`. |
| `Accounting.ServeStep` | go/go-service/transport/http/metrics/prometheus/server.go:133-144 | One request changes each counter under a label pair by 0 or 1, and the change is 1 exactly when that request reached the matching step. |
| `Accounting.ServeAllTally` | go/go-service/transport/http/metrics/prometheus/server.go:133-144 | Over any sequence of requests, each with its own handler outcome, `started` and `received` rise by the number of instrumented requests. The observations and the handled total rise by the number whose handler returned. `handled` under a code label rises by the number that ended with that label. `sent` rises by the number that ended 2xx. |
| `Accounting.CodeLabelCountsStatus` | go/go-service/transport/http/metrics/prometheus/server.go:187 | The requests counted under code label Itoa(s) are exactly those whose captured status is s. |
| `Accounting.FreshMetricsBalance` | go/go-service/transport/http/metrics/prometheus/server.go:133-144 | From fresh metrics, after any sequence of requests in which no instrumented handler panics (each request with its own outcome): `started == received ==` handled total `==` observations, which equals the number of instrumented requests. `sent <= started`. |
| `Accounting.SameRequestTwoOutcomes` | go/go-service/transport/http/metrics/prometheus/server.go:133-144 | Two calls with the same path and method, the first left at the default 200 and the second answered 500, give one count under code "200", one under "500", two starts and one sent message. |
| `Accounting.HealthTrafficInvisible` | go/go-service/transport/http/metrics/prometheus/server.go:127-131 | A sequence of health-check requests leaves every counter as it was, whatever the inner handler does. |
| `Accounting.ServeAllGrows` | go/go-service/transport/http/metrics/prometheus/server.go:168-189 | Serving any sequence of requests never decrements or resets any counter or the histogram. |
| `Server.ServerMetrics.constructor` | go/go-service/transport/http/metrics/prometheus/server.go:35-71 | New metrics carry the name and version labels, all five vectors are empty, and the accounting rule holds. |
| `Server.ServerMetrics.Handler` | go/go-service/transport/http/metrics/prometheus/server.go:109-111 | Returns a new handler bound to these metrics and the given inner handler. |
| `Server.ServerReporter.constructor` | go/go-service/transport/http/metrics/prometheus/server.go:168-173 | The reporter keeps the metrics and both labels, and the shared counters become `Start` of their old value. |
| `Server.ServerReporter.ReceivedMessage` | go/go-service/transport/http/metrics/prometheus/server.go:176-178 | The shared counters become `Receive` of their old value under the reporter's labels. |
| `Server.ServerReporter.SentMessage` | go/go-service/transport/http/metrics/prometheus/server.go:181-183 | The shared counters become `Send` of their old value under the reporter's labels. |
| `Server.ServerReporter.Handled` | go/go-service/transport/http/metrics/prometheus/server.go:186-189 | The shared counters become `Handle` of their old value under the reporter's labels and the code. |
| `Server.Handler.ServeHTTP` | go/go-service/transport/http/metrics/prometheus/server.go:123-145 | The counters become `Serve` of their old value. Every status reaches the caller's writer in order. The call returns exactly when the inner handler does. The accounting rule is preserved. |

## Left out

- Registration through the fx lifecycle hooks (server.go:73-82) is left out. It is process wiring into Prometheus' global registry.
- `Describe` and `Collect` (server.go:89-105) are left out. They only forward the vectors to Prometheus over Go channels.
- Latency values are left out. `time.Now`, `time.Since(...).Seconds()` and the histogram buckets are wall-clock time and floating point, so an observation is counted, not measured.
- Concurrent access to the counters is left out. Atomic increments live in the Prometheus client library. The model serves requests one after another.
- The body of `tstrings.IsHealth` is not part of this model. It is a function value supplied to the handler.
- `os.ExecutableName` and the version value are not part of this model. They are opaque strings passed to the constructor.
- Strings.ToLower: lower-cases ASCII letters only. Go's `strings.ToLower` also folds non-ASCII letters. This makes no difference to served requests, because net/http's server rejects a method that is not an HTTP token, and tokens are ASCII.
- Http.Recorder: the wrapped net/http writer is reduced to the list of statuses it receives. Its own rules are not modelled, and the model states only the metrics side. After a final status (200 or above, or 101) net/http ignores a later `WriteHeader`, so when a handler calls it twice the client gets the first status while the metrics record the last one. An informational status (1xx other than 101) may be followed by another; if the handler then writes a body, net/http sends an implicit 200 that the decorator never sees, so the metrics record the 1xx code and count no sent message. A code outside 100..999 makes net/http panic after the decorator has already stored it.
- Response bodies and headers other than the status are left out. The decorator only overrides `WriteHeader`, so body writes do not touch the captured status.
- Server.Handler.ServeHTTP: the wrapped handler is a fixed function of the request's path and method, so repeated calls on one `Handler` object with the same path and method end the same way. The lemmas over sequences (`Accounting.ServeAll` and those about it) do not have this limit: each request carries its own outcome.
- Request query, headers and body are not modelled. The middleware reads only the path and the method, and what the inner handler does with the rest is covered by its `HandlerRun`.
- Accounting.Serve and Counters.Start: label values are assumed to be valid UTF-8, because a Dafny `string` holds Unicode characters only. The client library's `WithLabelValues` panics on a label value that is not valid UTF-8, such as the decoded path of `GET /%ff`. In the source, that request panics inside `newServerReporter` (line 170): no counter changes and the inner handler never runs. The model does not state this path.
- Counters.Inc: counts are unbounded `nat`s. The client library keeps each count in a 64-bit value, and the model does not state what happens when one overflows.
- The cache object client, the Redis metrics registration and the Python script in the repository are unrelated to this middleware and are not modelled.
