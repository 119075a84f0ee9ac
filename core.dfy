/** The promise state machine: construction, and the inner `resolve` and
    `reject` functions that settle a promise once and queue one microtask
    per registered callback (promise.js:2-35). */
module Core {
  import opened Types

  /** `new Promise(...)` before the executor runs: a pending promise with
      no result and no callbacks, at the next free id (the rest of the
      world is untouched, `CoreProofs.AllocateFresh`). */
  function Allocate(w: World): (r: (World, PromiseId))
    ensures r.1 == |w.promises| && |r.0.promises| == |w.promises| + 1
  {
    (w.(promises := w.promises + [FreshRecord]), |w.promises|)
  }

  /** The branch of a callback pair that a settlement with `st` calls. */
  function Branch(cb: Callback, st: PromiseState): (h: Handler) {
    if st == Fulfilled then cb.onFulfilled else cb.onRejected
  }

  /** The microtasks `callbacks.forEach(...)` queues when `p` settles with
      `st`, one per callback, in registration order. */
  function Dispatch(p: PromiseId, cbs: seq<Callback>, st: PromiseState): (r: seq<Task>)
    ensures |r| == |cbs|
  {
    if cbs == [] then []
    else
      var last := cbs[|cbs| - 1];
      Dispatch(p, cbs[..|cbs| - 1], st) + [Task(p, Branch(last, st), last.derived)]
  }

  /** The inner `resolve` (st == Fulfilled) and `reject` (st == Rejected)
      of promise `p`.  They never unwrap a promise value. */
  function Settle(w: World, p: PromiseId, st: PromiseState, v: Value): (r: World)
    requires p < |w.promises| && st != Pending
    ensures |r.promises| == |w.promises| && r.combinators == w.combinators
    ensures r.promises[p].state != Pending && r.promises[p].callbacks == w.promises[p].callbacks
    ensures w.promises[p].state == Pending ==> r.promises[p].state == st && r.promises[p].result == v
  {
    var rec := w.promises[p];
    if rec.state != Pending then w
    else w.(promises := w.promises[p := PromiseRecord(st, v, rec.callbacks)],
            queue := w.queue + Dispatch(p, rec.callbacks, st))
  }

  /** A call the executor makes synchronously on its own settlement
      functions. */
  datatype Call = CallResolve(v: Value) | CallReject(v: Value)

  /** A user executor: the calls it makes, in order, and whether it then
      throws. */
  datatype Executor = Executor(calls: seq<Call>, throws: Option<Value>)

  function Perform(w: World, p: PromiseId, call: Call): (r: World)
    requires p < |w.promises|
  {
    match call
    case CallResolve(v) => Settle(w, p, Fulfilled, v)
    case CallReject(v) => Settle(w, p, Rejected, v)
  }

  /** The executor's calls run in order against promise `p`. */
  function RunCalls(w: World, p: PromiseId, calls: seq<Call>): (r: World)
    requires p < |w.promises|
    ensures |r.promises| == |w.promises| && r.combinators == w.combinators
    decreases |calls|
  {
    if calls == [] then w
    else Perform(RunCalls(w, p, calls[..|calls| - 1]), p, calls[|calls| - 1])
  }

  /** `new Promise(executor)`: allocate, run the executor, and turn an
      exception it throws into `reject(err)`. */
  function Construct(w: World, ex: Executor): (r: (World, PromiseId))
    ensures r.1 == |w.promises| && |r.0.promises| == |w.promises| + 1 && r.0.combinators == w.combinators
    ensures ex.throws.Some? ==> r.0.promises[r.1].state != Pending
  {
    var (w1, p) := Allocate(w);
    var w2 := RunCalls(w1, p, ex.calls);
    (if ex.throws.Some? then Settle(w2, p, Rejected, ex.throws.value) else w2, p)
  }
}
