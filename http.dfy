/**
 * The net/http side of the middleware: the request fields it reads, the
 * response writer it wraps, the status-capturing decorator, and the inner
 * handler, which is seen only through the WriteHeader calls it makes and
 * whether it returns or panics.
 */
module Http {
  import opened Strings

  /** The two fields of *http.Request the middleware reads: URL.Path and Method. */
  datatype Request = Request(path: string, verb: string)

  /**
   * What the inner handler does with one request: the statuses it passes to
   * WriteHeader, in order, and whether it then panics instead of returning.
   */
  datatype HandlerRun = HandlerRun(writes: seq<int>, panics: bool)

  /** http.StatusOK, the status the decorator starts from. */
  const STATUS_OK := 200

  /**
   * The 2xx test applied to the captured status before counting a sent
   * message: it holds exactly for the statuses whose code label is "2xx".
   */
  predicate IsSuccess(status: int): (b: bool)
    ensures b <==> |Itoa(status)| == 3 && Itoa(status)[0] == '2'
  {
    SuccessRangeIsTwoXXLabel(status);
    200 <= status <= 299
  }

  /**
   * The status held by the decorator after it starts at `status` and sees
   * `writes`, one WriteHeader call at a time. Every call overwrites the field,
   * so the last call wins, and without a call the start value stays.
   */
  function Overwrite(status: int, writes: seq<int>): (r: int)
    ensures writes == [] ==> r == status
    ensures writes != [] ==> r == writes[|writes| - 1]
    decreases |writes|
  {
    if writes == [] then status else Overwrite(writes[0], writes[1..])
  }

  /** The wrapped http.ResponseWriter, seen as the list of statuses it has been sent. */
  class Recorder {
    var headers: seq<int>

    constructor ()
      ensures headers == []
    {
      headers := [];
    }

    method WriteHeader(status: int)
      modifies this
      ensures headers == old(headers) + [status]
    {
      headers := headers + [status];
    }
  }

  /** The decorator: remembers the last status and forwards each call unchanged. */
  class ResponseWriter {
    const inner: Recorder
    var status: int

    constructor (inner: Recorder)
      ensures this.inner == inner && status == STATUS_OK
    {
      this.inner := inner;
      status := STATUS_OK;
    }

    method WriteHeader(status: int)
      modifies this, inner
      ensures this.status == status
      ensures inner.headers == old(inner.headers) + [status]
    {
      this.status := status;
      inner.WriteHeader(status);
    }
  }

  /** The inner handler run directly against the caller's writer. */
  method Run(w: Recorder, run: HandlerRun) returns (returned: bool)
    modifies w
    ensures w.headers == old(w.headers) + run.writes
    ensures returned == !run.panics
  {
    var i := 0;
    while i < |run.writes|
      invariant 0 <= i <= |run.writes|
      invariant w.headers == old(w.headers) + run.writes[..i]
    {
      w.WriteHeader(run.writes[i]);
      i := i + 1;
    }
    assert run.writes[..i] == run.writes;
    returned := !run.panics;
  }

  /** The inner handler run against the decorator. */
  method RunDecorated(w: ResponseWriter, run: HandlerRun) returns (returned: bool)
    modifies w, w.inner
    ensures w.inner.headers == old(w.inner.headers) + run.writes
    ensures w.status == Overwrite(old(w.status), run.writes)
    ensures returned == !run.panics
  {
    var i := 0;
    while i < |run.writes|
      invariant 0 <= i <= |run.writes|
      invariant w.inner.headers == old(w.inner.headers) + run.writes[..i]
      invariant w.status == Overwrite(old(w.status), run.writes[..i])
    {
      w.WriteHeader(run.writes[i]);
      i := i + 1;
    }
    assert run.writes[..i] == run.writes;
    returned := !run.panics;
  }
}
