/**
 * ServerMetrics, serverReporter and the instrumenting handler, as objects
 * whose fields are updated in place. Each state change is tied to the
 * functions of module Counters and Accounting, where its properties are
 * proved.
 */
module Server {
  import opened Strings
  import opened Counters
  import opened Http
  import opened Accounting

  /** The five metric vectors, each held as the current value of its children. */
  class ServerMetrics {
    /** The constant `name` and `version` labels attached to every metric. */
    const name: string
    const version: string

    var started: map<Labels, nat>
    var handled: map<HandledKey, nat>
    var received: map<Labels, nat>
    var sent: map<Labels, nat>
    var observations: map<Labels, nat>

    function Snapshot(): Values
      reads this
    {
      Values(started, handled, received, sent, observations)
    }

    /** Between requests the counters obey the accounting rule under every label pair. */
    ghost predicate Valid()
      reads this
    {
      Consistent(Snapshot())
    }

    /** NewServerMetrics, without the registration hooks. */
    constructor (name: string, version: string)
      ensures this.name == name && this.version == version
      ensures Snapshot() == EMPTY
      ensures Valid()
    {
      this.name := name;
      this.version := version;
      started, handled, received, sent, observations := map[], map[], map[], map[], map[];
      EmptyConsistent();
    }

    /** ServerMetrics.Handler: wraps the inner handler around these metrics. */
    method Handler(isHealth: string -> bool, inner: Request -> HandlerRun) returns (h: Handler)
      ensures fresh(h)
      ensures h.metrics == this && h.isHealth == isHealth && h.inner == inner
    {
      h := new Handler(this, isHealth, inner);
    }
  }

  /** The per-request reporter, bound to one label pair. */
  class ServerReporter {
    const metrics: ServerMetrics
    const serviceName: string
    const methodName: string

    /** newServerReporter: counts the request as started. */
    constructor (m: ServerMetrics, serviceName: string, methodName: string)
      modifies m
      ensures metrics == m && this.serviceName == serviceName && this.methodName == methodName
      ensures m.Snapshot() == Start(old(m.Snapshot()), Labels(serviceName, methodName))
    {
      metrics := m;
      this.serviceName := serviceName;
      this.methodName := methodName;
      new;
      m.started := Inc(m.started, Labels(serviceName, methodName));
    }

    method ReceivedMessage()
      modifies metrics
      ensures metrics.Snapshot() == Receive(old(metrics.Snapshot()), Labels(serviceName, methodName))
    {
      metrics.received := Inc(metrics.received, Labels(serviceName, methodName));
    }

    method SentMessage()
      modifies metrics
      ensures metrics.Snapshot() == Send(old(metrics.Snapshot()), Labels(serviceName, methodName))
    {
      metrics.sent := Inc(metrics.sent, Labels(serviceName, methodName));
    }

    /** Counts the request as handled with `code` and adds one latency observation. */
    method Handled(code: int)
      modifies metrics
      ensures metrics.Snapshot() == Handle(old(metrics.Snapshot()), Labels(serviceName, methodName), code)
    {
      metrics.handled := Inc(metrics.handled, HandledKey(Labels(serviceName, methodName), Itoa(code)));
      metrics.observations := Inc(metrics.observations, Labels(serviceName, methodName));
    }
  }

  /** The instrumenting http.Handler: the shared metrics and the handler it wraps. */
  class Handler {
    const metrics: ServerMetrics
    /** The health-check path test. */
    const isHealth: string -> bool
    /** The wrapped handler, as what it does with each request. */
    const inner: Request -> HandlerRun

    constructor (metrics: ServerMetrics, isHealth: string -> bool, inner: Request -> HandlerRun)
      ensures this.metrics == metrics && this.isHealth == isHealth && this.inner == inner
    {
      this.metrics := metrics;
      this.isHealth := isHealth;
      this.inner := inner;
    }

    /**
     * Serves one request. `returned` is false when the inner handler panicked;
     * the panic then propagates to the caller and Handled never runs.
     */
    method ServeHTTP(resp: Recorder, req: Request) returns (returned: bool)
      modifies metrics, resp
      ensures metrics.Snapshot() == Serve(old(metrics.Snapshot()), isHealth, req, inner(req))
      ensures resp.headers == old(resp.headers) + inner(req).writes
      ensures returned == !inner(req).panics
      ensures old(metrics.Valid()) ==> metrics.Valid()
    {
      ghost var before := metrics.Snapshot();
      if metrics.Valid() {
        ServeKeepsConsistent(before, isHealth, req, inner(req));
      }
      var serviceName, methodName := req.path, ToLower(req.verb);
      var run := inner(req);
      if isHealth(serviceName) {
        returned := Run(resp, run);
        return;
      }

      var monitor := new ServerReporter(metrics, serviceName, methodName);
      monitor.ReceivedMessage();

      var res := new ResponseWriter(resp);
      returned := RunDecorated(res, run);
      if !returned {
        return;
      }

      monitor.Handled(res.status);
      if IsSuccess(res.status) {
        monitor.SentMessage();
      }
    }
  }
}
