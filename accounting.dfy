/**
 * What handler.ServeHTTP does to the counters for one request, as a function
 * of the counters before it, and what that implies over a whole sequence of
 * requests.
 */
module Accounting {
  import opened Strings
  import opened Counters
  import opened Http

  /**
   * The label pair of a request: the decoded URL path (req.URL.Path), and the method with its
   * upper-case letters lower-cased and every other character kept.
   */
  function LabelsOf(req: Request): (l: Labels)
    ensures l.serviceName == req.path
    ensures |l.methodName| == |req.verb|
    ensures forall i :: 0 <= i < |l.methodName| ==> !IsUpper(l.methodName[i])
    ensures forall i :: 0 <= i < |req.verb| && !IsUpper(req.verb[i]) ==> l.methodName[i] == req.verb[i]
    ensures forall i :: 0 <= i < |req.verb| && IsUpper(req.verb[i]) ==> l.methodName[i] as int == req.verb[i] as int + 32
  {
    Labels(req.path, ToLower(req.verb))
  }

  /**
   * The counters after one request. A health path leaves them alone. Any other
   * request starts a reporter and records a received message; if the inner
   * handler returns, the captured status is recorded as handled, and a sent
   * message is counted when that status is 2xx. If the inner handler panics,
   * nothing after it runs.
   */
  function Serve(c: Values, isHealth: string -> bool, req: Request, run: HandlerRun): (r: Values)
    ensures isHealth(req.path) ==> r == c
    ensures !isHealth(req.path) ==>
      && BumpedOnce(c.started, r.started, LabelsOf(req))
      && BumpedOnce(c.received, r.received, LabelsOf(req))
    ensures !isHealth(req.path) && run.panics ==>
      r.handled == c.handled && r.observations == c.observations && r.sent == c.sent
    ensures !isHealth(req.path) && !run.panics ==>
      && BumpedOnce(c.handled, r.handled, HandledKey(LabelsOf(req), Itoa(Overwrite(STATUS_OK, run.writes))))
      && BumpedOnce(c.observations, r.observations, LabelsOf(req))
    ensures !isHealth(req.path) && !run.panics && IsSuccess(Overwrite(STATUS_OK, run.writes)) ==>
      BumpedOnce(c.sent, r.sent, LabelsOf(req))
    ensures !(!isHealth(req.path) && !run.panics && IsSuccess(Overwrite(STATUS_OK, run.writes))) ==>
      r.sent == c.sent
    ensures Grows(c, r)
  {
    if isHealth(req.path) then c
    else
      var p := LabelsOf(req);
      var received := Receive(Start(c, p), p);
      if run.panics then received
      else
        var status := Overwrite(STATUS_OK, run.writes);
        var handled := Handle(received, p, status);
        if IsSuccess(status) then Send(handled, p) else handled
  }

  /** The per-label-pair accounting rule that holds between requests. */
  ghost predicate Accounted(c: Values, p: Labels) {
    && Count(c.started, p) == Count(c.received, p)
    && CodeTotal(c.handled, p) == Count(c.observations, p)
    && Count(c.sent, p) <= Count(c.observations, p) <= Count(c.started, p)
  }

  ghost predicate Consistent(c: Values) {
    forall p :: Accounted(c, p)
  }

  lemma EmptyConsistent()
    ensures Consistent(EMPTY)
  {
  }

  /** One request, instrumented or not, returning or panicking, keeps the accounting rule. */
  lemma ServeKeepsConsistent(c: Values, isHealth: string -> bool, req: Request, run: HandlerRun)
    requires Consistent(c)
    ensures Consistent(Serve(c, isHealth, req, run))
  {
    var r := Serve(c, isHealth, req, run);
    forall p ensures Accounted(r, p) {
      assert Accounted(c, p);
      if !isHealth(req.path) && !run.panics {
        var key := HandledKey(LabelsOf(req), Itoa(Overwrite(STATUS_OK, run.writes)));
        assert r.handled == Inc(c.handled, key);
        CodeTotalInc(c.handled, key, p);
      }
    }
  }

  /** One request together with what the inner handler did with it on that call. */
  datatype Exchange = Exchange(req: Request, run: HandlerRun)

  /** The counters after a sequence of exchanges served one after another. */
  function ServeAll(c: Values, isHealth: string -> bool, xs: seq<Exchange>): Values
    decreases |xs|
  {
    if xs == [] then c else ServeAll(Serve(c, isHealth, xs[0].req, xs[0].run), isHealth, xs[1..])
  }

  // Reference counts over a sequence of exchanges, for one label pair.

  predicate IsInstrumented(isHealth: string -> bool, x: Exchange, p: Labels) {
    !isHealth(x.req.path) && LabelsOf(x.req) == p
  }

  predicate IsFinished(isHealth: string -> bool, x: Exchange, p: Labels) {
    IsInstrumented(isHealth, x, p) && !x.run.panics
  }

  /** The exchanges that are instrumented under `p`. */
  function Instrumented(isHealth: string -> bool, xs: seq<Exchange>, p: Labels): nat
    decreases |xs|
  {
    if xs == [] then 0
    else (if IsInstrumented(isHealth, xs[0], p) then 1 else 0) + Instrumented(isHealth, xs[1..], p)
  }

  /** Those of them whose inner handler returned. */
  function Finished(isHealth: string -> bool, xs: seq<Exchange>, p: Labels): nat
    decreases |xs|
  {
    if xs == [] then 0
    else (if IsFinished(isHealth, xs[0], p) then 1 else 0) + Finished(isHealth, xs[1..], p)
  }

  /** Those of them whose inner handler returned, with a captured status whose label is `code`. */
  function FinishedWith(isHealth: string -> bool, xs: seq<Exchange>, p: Labels, code: string): nat
    decreases |xs|
  {
    if xs == [] then 0
    else
      var hit := IsFinished(isHealth, xs[0], p) && Itoa(Overwrite(STATUS_OK, xs[0].run.writes)) == code;
      (if hit then 1 else 0) + FinishedWith(isHealth, xs[1..], p, code)
  }

  /** Those of them whose inner handler returned with captured status `status`. */
  function FinishedWithStatus(isHealth: string -> bool, xs: seq<Exchange>, p: Labels, status: int): nat
    decreases |xs|
  {
    if xs == [] then 0
    else
      var hit := IsFinished(isHealth, xs[0], p) && Overwrite(STATUS_OK, xs[0].run.writes) == status;
      (if hit then 1 else 0) + FinishedWithStatus(isHealth, xs[1..], p, status)
  }

  /** Those of them whose inner handler returned with a 2xx captured status. */
  function Succeeded(isHealth: string -> bool, xs: seq<Exchange>, p: Labels): nat
    decreases |xs|
  {
    if xs == [] then 0
    else
      var hit := IsFinished(isHealth, xs[0], p) && IsSuccess(Overwrite(STATUS_OK, xs[0].run.writes));
      (if hit then 1 else 0) + Succeeded(isHealth, xs[1..], p)
  }

  /** The change one request makes to each counter under `p`, as 0 or 1. */
  lemma ServeStep(c: Values, isHealth: string -> bool, req: Request, run: HandlerRun, p: Labels, code: string)
    ensures var r := Serve(c, isHealth, req, run);
      var instrumented := !isHealth(req.path) && LabelsOf(req) == p;
      var finished := instrumented && !run.panics;
      var status := Overwrite(STATUS_OK, run.writes);
      && Count(r.started, p) == Count(c.started, p) + (if instrumented then 1 else 0)
      && Count(r.received, p) == Count(c.received, p) + (if instrumented then 1 else 0)
      && Count(r.observations, p) == Count(c.observations, p) + (if finished then 1 else 0)
      && CodeTotal(r.handled, p) == CodeTotal(c.handled, p) + (if finished then 1 else 0)
      && Count(r.handled, HandledKey(p, code)) == Count(c.handled, HandledKey(p, code)) + (if finished && Itoa(status) == code then 1 else 0)
      && Count(r.sent, p) == Count(c.sent, p) + (if finished && IsSuccess(status) then 1 else 0)
  {
    if !isHealth(req.path) && !run.panics {
      var key := HandledKey(LabelsOf(req), Itoa(Overwrite(STATUS_OK, run.writes)));
      assert Serve(c, isHealth, req, run).handled == Inc(c.handled, key);
      CodeTotalInc(c.handled, key, p);
    }
  }

  /**
   * Over a sequence of exchanges, each counter under `p` grows by exactly the
   * number of exchanges that reached the matching step of ServeHTTP.
   */
  lemma {:induction false} ServeAllTally(c: Values, isHealth: string -> bool, xs: seq<Exchange>, p: Labels, code: string)
    ensures var r := ServeAll(c, isHealth, xs);
      && Count(r.started, p) == Count(c.started, p) + Instrumented(isHealth, xs, p)
      && Count(r.received, p) == Count(c.received, p) + Instrumented(isHealth, xs, p)
      && Count(r.observations, p) == Count(c.observations, p) + Finished(isHealth, xs, p)
      && CodeTotal(r.handled, p) == CodeTotal(c.handled, p) + Finished(isHealth, xs, p)
      && Count(r.handled, HandledKey(p, code)) == Count(c.handled, HandledKey(p, code)) + FinishedWith(isHealth, xs, p, code)
      && Count(r.sent, p) == Count(c.sent, p) + Succeeded(isHealth, xs, p)
    decreases |xs|
  {
    if xs != [] {
      var c1 := Serve(c, isHealth, xs[0].req, xs[0].run);
      ServeStep(c, isHealth, xs[0].req, xs[0].run, p, code);
      ServeAllTally(c1, isHealth, xs[1..], p, code);
    }
  }

  /** When no instrumented handler panics, every instrumented exchange reaches Handled. */
  lemma {:induction false} FinishedWithoutPanics(isHealth: string -> bool, xs: seq<Exchange>, p: Labels)
    requires forall i :: 0 <= i < |xs| && !isHealth(xs[i].req.path) ==> !xs[i].run.panics
    ensures Finished(isHealth, xs, p) == Instrumented(isHealth, xs, p)
    decreases |xs|
  {
    if xs != [] {
      assert !isHealth(xs[0].req.path) ==> !xs[0].run.panics;
      FinishedWithoutPanics(isHealth, xs[1..], p);
    }
  }

  lemma {:induction false} SucceededAtMostFinished(isHealth: string -> bool, xs: seq<Exchange>, p: Labels)
    ensures Succeeded(isHealth, xs, p) <= Finished(isHealth, xs, p) <= Instrumented(isHealth, xs, p)
    decreases |xs|
  {
    if xs != [] {
      SucceededAtMostFinished(isHealth, xs[1..], p);
    }
  }

  /**
   * The child handled{p, Itoa(status)} counts exactly the exchanges that ended
   * with captured status `status`: no two statuses share a code label.
   */
  lemma {:induction false} CodeLabelCountsStatus(isHealth: string -> bool, xs: seq<Exchange>, p: Labels, status: int)
    ensures FinishedWith(isHealth, xs, p, Itoa(status)) == FinishedWithStatus(isHealth, xs, p, status)
    decreases |xs|
  {
    if xs != [] {
      ItoaInjective(Overwrite(STATUS_OK, xs[0].run.writes), status);
      CodeLabelCountsStatus(isHealth, xs[1..], p, status);
    }
  }

  /**
   * From freshly created metrics, after any sequence of exchanges in which no
   * instrumented inner handler panics, for every label pair: started,
   * received, the total of handled over all codes and the number of latency
   * observations are equal (the number of instrumented requests), and sent is
   * at most that.
   */
  lemma FreshMetricsBalance(isHealth: string -> bool, xs: seq<Exchange>, p: Labels)
    requires forall i :: 0 <= i < |xs| && !isHealth(xs[i].req.path) ==> !xs[i].run.panics
    ensures var r := ServeAll(EMPTY, isHealth, xs);
      && Count(r.started, p) == Instrumented(isHealth, xs, p)
      && Count(r.received, p) == Count(r.started, p)
      && CodeTotal(r.handled, p) == Count(r.started, p)
      && Count(r.observations, p) == Count(r.started, p)
      && Count(r.sent, p) <= Count(r.started, p)
  {
    ServeAllTally(EMPTY, isHealth, xs, p, "");
    CodeTotalEmpty(p);
    FinishedWithoutPanics(isHealth, xs, p);
    SucceededAtMostFinished(isHealth, xs, p);
  }

  /**
   * The same path and method may end differently on two calls: a request
   * answered first with the default 200 and then with 500 leaves one count
   * under each code label, and one sent message.
   */
  lemma SameRequestTwoOutcomes(isHealth: string -> bool, req: Request)
    requires !isHealth(req.path)
    ensures var r := ServeAll(EMPTY, isHealth, [Exchange(req, HandlerRun([], false)), Exchange(req, HandlerRun([500], false))]);
      && Count(r.handled, HandledKey(LabelsOf(req), "200")) == 1
      && Count(r.handled, HandledKey(LabelsOf(req), "500")) == 1
      && Count(r.started, LabelsOf(req)) == 2
      && Count(r.sent, LabelsOf(req)) == 1
  {
    var xs := [Exchange(req, HandlerRun([], false)), Exchange(req, HandlerRun([500], false))];
    var p := LabelsOf(req);
    assert Itoa(200) == "200" && Itoa(500) == "500";
    assert Overwrite(STATUS_OK, []) == 200 && Overwrite(STATUS_OK, [500]) == 500;
    assert xs[1..][1..] == [];
    assert FinishedWith(isHealth, xs[1..], p, "200") == 0;
    assert FinishedWith(isHealth, xs[1..], p, "500") == 1;
    assert Instrumented(isHealth, xs[1..], p) == 1;
    assert IsSuccess(200) && !IsSuccess(500);
    assert Succeeded(isHealth, xs[1..], p) == 0;
    ServeAllTally(EMPTY, isHealth, xs, p, "200");
    ServeAllTally(EMPTY, isHealth, xs, p, "500");
  }

  /** Health-check traffic alone never moves a counter, whatever the inner handler does. */
  lemma {:induction false} HealthTrafficInvisible(c: Values, isHealth: string -> bool, xs: seq<Exchange>)
    requires forall i :: 0 <= i < |xs| ==> isHealth(xs[i].req.path)
    ensures ServeAll(c, isHealth, xs) == c
    decreases |xs|
  {
    if xs != [] {
      assert isHealth(xs[0].req.path);
      HealthTrafficInvisible(c, isHealth, xs[1..]);
    }
  }

  /** Serving a sequence of exchanges never decrements or resets a counter. */
  lemma {:induction false} ServeAllGrows(c: Values, isHealth: string -> bool, xs: seq<Exchange>)
    ensures Grows(c, ServeAll(c, isHealth, xs))
    decreases |xs|
  {
    if xs != [] {
      var c1 := Serve(c, isHealth, xs[0].req, xs[0].run);
      ServeAllGrows(c1, isHealth, xs[1..]);
    }
  }
}
