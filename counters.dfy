/**
 * The values held by the five Prometheus vectors of ServerMetrics, and the
 * effect on them of each serverReporter step. A counter vector is a map from
 * label values to a count; a label tuple that was never used reads as zero,
 * as a child created by WithLabelValues starts at zero. The latency histogram
 * is kept as its observation count per label pair.
 */
module Counters {
  import opened Strings

  /** The (http_service, http_method) label pair. */
  datatype Labels = Labels(serviceName: string, methodName: string)

  /** The (http_service, http_method, http_code) label triple of the handled counter. */
  datatype HandledKey = HandledKey(labels: Labels, code: string)

  datatype Values = Values(
    started: map<Labels, nat>,
    handled: map<HandledKey, nat>,
    received: map<Labels, nat>,
    sent: map<Labels, nat>,
    observations: map<Labels, nat>)

  /** The value of every vector right after NewServerMetrics. */
  const EMPTY := Values(map[], map[], map[], map[], map[])

  /** The current value of the child of vector `m` under label tuple `k`. */
  function Count<K>(m: map<K, nat>, k: K): nat {
    if k in m then m[k] else 0
  }

  /** `after` is `before` with the child under `k` incremented once and no other child touched. */
  ghost predicate BumpedOnce<K(!new)>(before: map<K, nat>, after: map<K, nat>, k: K) {
    && Count(after, k) == Count(before, k) + 1
    && forall j :: j != k ==> Count(after, j) == Count(before, j)
  }

  /** No child of `before` has a larger value than in `after`. */
  ghost predicate Below<K(!new)>(before: map<K, nat>, after: map<K, nat>) {
    forall k :: Count(before, k) <= Count(after, k)
  }

  /** Every counter and the histogram only grew from `a` to `b`. */
  ghost predicate Grows(a: Values, b: Values) {
    && Below(a.started, b.started)
    && Below(a.handled, b.handled)
    && Below(a.received, b.received)
    && Below(a.sent, b.sent)
    && Below(a.observations, b.observations)
  }

  /** WithLabelValues(k).Inc(). */
  function Inc<K(!new)>(m: map<K, nat>, k: K): (r: map<K, nat>)
    ensures r.Keys == m.Keys + {k}
    ensures BumpedOnce(m, r, k)
    ensures Below(m, r)
  {
    m[k := Count(m, k) + 1]
  }

  /** newServerReporter: started{service, method} is incremented. */
  function Start(c: Values, p: Labels): (r: Values)
    ensures BumpedOnce(c.started, r.started, p)
    ensures r.handled == c.handled && r.received == c.received
    ensures r.sent == c.sent && r.observations == c.observations
    ensures Grows(c, r)
  {
    c.(started := Inc(c.started, p))
  }

  /** serverReporter.ReceivedMessage: received{service, method} is incremented. */
  function Receive(c: Values, p: Labels): (r: Values)
    ensures BumpedOnce(c.received, r.received, p)
    ensures r.started == c.started && r.handled == c.handled
    ensures r.sent == c.sent && r.observations == c.observations
    ensures Grows(c, r)
  {
    c.(received := Inc(c.received, p))
  }

  /** serverReporter.SentMessage: sent{service, method} is incremented. */
  function Send(c: Values, p: Labels): (r: Values)
    ensures BumpedOnce(c.sent, r.sent, p)
    ensures r.started == c.started && r.handled == c.handled
    ensures r.received == c.received && r.observations == c.observations
    ensures Grows(c, r)
  {
    c.(sent := Inc(c.sent, p))
  }

  /**
   * serverReporter.Handled(code): handled{service, method, Itoa(code)} is
   * incremented and one latency observation is added under (service, method).
   */
  function Handle(c: Values, p: Labels, code: int): (r: Values)
    ensures BumpedOnce(c.handled, r.handled, HandledKey(p, Itoa(code)))
    ensures BumpedOnce(c.observations, r.observations, p)
    ensures r.started == c.started && r.received == c.received && r.sent == c.sent
    ensures Grows(c, r)
  {
    c.(handled := Inc(c.handled, HandledKey(p, Itoa(code))),
       observations := Inc(c.observations, p))
  }

  // The sum of handled{p, code} over every code label.

  function Share(h: map<HandledKey, nat>, k: HandledKey, p: Labels): nat {
    if k.labels == p then Count(h, k) else 0
  }

  ghost function SumOver(h: map<HandledKey, nat>, keys: set<HandledKey>, p: Labels): nat
    decreases keys
  {
    if keys == {} then 0
    else
      var k :| k in keys;
      Share(h, k, p) + SumOver(h, keys - {k}, p)
  }

  /** The total of handled{p, code} over all codes. */
  ghost function CodeTotal(h: map<HandledKey, nat>, p: Labels): nat {
    SumOver(h, h.Keys, p)
  }

  /** The sum does not depend on which key is taken first. */
  lemma {:induction false} SumOverRemove(h: map<HandledKey, nat>, keys: set<HandledKey>, k: HandledKey, p: Labels)
    requires k in keys
    ensures SumOver(h, keys, p) == Share(h, k, p) + SumOver(h, keys - {k}, p)
    decreases keys
  {
    var j :| j in keys && SumOver(h, keys, p) == Share(h, j, p) + SumOver(h, keys - {j}, p);
    if j != k {
      SumOverRemove(h, keys - {j}, k, p);
      SumOverRemove(h, keys - {k}, j, p);
      assert keys - {j} - {k} == keys - {k} - {j};
    }
  }

  /** The sum over `keys` only reads the children under `keys`. */
  lemma {:induction false} SumOverFrame(h1: map<HandledKey, nat>, h2: map<HandledKey, nat>, keys: set<HandledKey>, p: Labels)
    requires forall k :: k in keys ==> Count(h1, k) == Count(h2, k)
    ensures SumOver(h1, keys, p) == SumOver(h2, keys, p)
    decreases keys
  {
    if keys != {} {
      var k :| k in keys && SumOver(h1, keys, p) == Share(h1, k, p) + SumOver(h1, keys - {k}, p);
      assert Count(h1, k) == Count(h2, k);
      assert Share(h1, k, p) == Share(h2, k, p);
      SumOverRemove(h2, keys, k, p);
      SumOverFrame(h1, h2, keys - {k}, p);
    }
  }

  /**
   * Incrementing handled{q, code} raises the total over all codes under q by
   * one and leaves the total under every other label pair as it was.
   */
  lemma CodeTotalInc(h: map<HandledKey, nat>, k: HandledKey, p: Labels)
    ensures CodeTotal(Inc(h, k), p) == CodeTotal(h, p) + (if k.labels == p then 1 else 0)
  {
    var h' := Inc(h, k);
    SumOverRemove(h', h'.Keys, k, p);
    SumOverFrame(h', h, h'.Keys - {k}, p);
    if k in h {
      SumOverRemove(h, h.Keys, k, p);
      assert h'.Keys == h.Keys;
    } else {
      assert h'.Keys - {k} == h.Keys;
    }
  }

  lemma CodeTotalEmpty(p: Labels)
    ensures CodeTotal(map[], p) == 0
  {
  }
}
