/** The chaining engine: `then`, its inner `executeCallback`, `catch`, and
    one turn of the microtask queue (promise.js:37-65). */
module Chaining {
  import opened Types
  import opened Core
  import opened Aggregates

  /** `typeof onFulfilled === 'function' ? onFulfilled : value => value`
      (described by `ChainingProofs.DefaultHandlers`). */
  function DefaultFulfilled(h: Option<Handler>): (r: Handler) {
    if h.Some? then h.value else Identity
  }

  /** `typeof onRejected === 'function' ? onRejected : reason => { throw reason }`
      (described by `ChainingProofs.DefaultHandlers`). */
  function DefaultRejected(h: Option<Handler>): (r: Handler) {
    if h.Some? then h.value else Rethrow
  }

  /** `p.then(onFulfilled, onRejected)`: a new pending promise `d`, and
      either one queued task (`p` settled) or one more callback pair on `p`
      (`p` pending). */
  function Then(w: World, p: PromiseId, onFulfilled: Option<Handler>, onRejected: Option<Handler>): (r: (World, PromiseId))
    requires p < |w.promises|
    ensures r.1 == |w.promises| && |r.0.promises| == |w.promises| + 1 && r.0.combinators == w.combinators
  {
    var f := DefaultFulfilled(onFulfilled);
    var g := DefaultRejected(onRejected);
    var (w1, d) := Allocate(w);
    var rec := w.promises[p];
    if rec.state == Fulfilled then (w1.(queue := w1.queue + [Task(p, f, d)]), d)
    else if rec.state == Rejected then (w1.(queue := w1.queue + [Task(p, g, d)]), d)
    else (w1.(promises := w1.promises[p := rec.(callbacks := rec.callbacks + [Callback(f, g, d)])]), d)
  }

  /** `p.catch(onRejected)` is `p.then(undefined, onRejected)`; a missing
      or non-function `onRejected` is `None`. */
  function Catch(w: World, p: PromiseId, onRejected: Option<Handler>): (r: (World, PromiseId))
    requires p < |w.promises|
    ensures r.1 == |w.promises| && |r.0.promises| == |w.promises| + 1 && r.0.combinators == w.combinators
  {
    Then(w, p, None, onRejected)
  }

  /** What a handler needs to exist in `w` before it can be called. */
  predicate Callable(w: World, h: Handler) {
    match h
    case Return(v) => RefOk(|w.promises|, v)
    case Throw(e) => RefOk(|w.promises|, e)
    case ResolveOf(p) => p < |w.promises|
    case RejectOf(p) => p < |w.promises|
    case OnValue(c, i) => ClosureOk(w, c, i)
    case OnReason(c, i) => ClosureOk(w, c, i)
    case _ => true
  }

  /** Calling handler `h` with `arg`: its side effect on the world and how
      the call ended.  The settlement functions and the combinator closures
      return `undefined`. */
  function Invoke(w: World, h: Handler, arg: Value): (r: (World, Completion))
    requires Callable(w, h)
    ensures |r.0.promises| == |w.promises| && |r.0.combinators| == |w.combinators|
    ensures RefOk(|w.promises|, arg) ==> RefOk(|w.promises|, r.1.v)
  {
    match h
    case Identity => (w, Normal(arg))
    case Rethrow => (w, Thrown(arg))
    case Return(v) => (w, Normal(v))
    case Throw(e) => (w, Thrown(e))
    case ResolveOf(p) => (Settle(w, p, Fulfilled, arg), Normal(Undefined))
    case RejectOf(p) => (Settle(w, p, Rejected, arg), Normal(Undefined))
    case OnValue(c, i) => (OnValueEffect(w, c, i, arg), Normal(Undefined))
    case OnReason(c, i) => (OnReasonEffect(w, c, i, arg), Normal(Undefined))
  }

  /** `executeCallback(h)` inside the promise `d` returned by
      `source.then(...)`: call `h` with `source`'s result; a returned
      promise is adopted with `then(resolve, reject)`, any other return
      value resolves `d`, and a throw rejects `d`. */
  function ExecuteCallback(w: World, source: PromiseId, h: Handler, d: PromiseId): (r: World)
    requires source < |w.promises| && d < |w.promises|
    requires Callable(w, h) && RefOk(|w.promises|, w.promises[source].result)
    ensures |w.promises| <= |r.promises| <= |w.promises| + 1 && |r.combinators| == |w.combinators|
    ensures var out := Invoke(w, h, w.promises[source].result).1;
      (out.Normal? && out.v.Ref?) || r.promises[d].state != Pending
  {
    var (w2, out) := Invoke(w, h, w.promises[source].result);
    match out
    case Thrown(e) => Settle(w2, d, Rejected, e)
    case Normal(v) =>
      if v.Ref? then Then(w2, v.id, Some(ResolveOf(d)), Some(RejectOf(d))).0
      else Settle(w2, d, Fulfilled, v)
  }

  /** A settlement only appends to the queue. */
  lemma SettleAppends(w: World, p: PromiseId, st: PromiseState, v: Value)
    requires p < |w.promises| && st != Pending
    ensures w.queue <= Settle(w, p, st, v).queue
  {
    if w.promises[p].state == Pending {
      var tail := Dispatch(p, w.promises[p].callbacks, st);
      assert (w.queue + tail)[..|w.queue|] == w.queue;
    }
  }

  /** Calling a handler only appends to the queue. */
  lemma InvokeAppends(w: World, h: Handler, arg: Value)
    requires Callable(w, h)
    ensures w.queue <= Invoke(w, h, arg).0.queue
  {
    match h
    case ResolveOf(p) => SettleAppends(w, p, Fulfilled, arg);
    case RejectOf(p) => SettleAppends(w, p, Rejected, arg);
    case OnValue(c, i) => {
      var cb := w.combinators[c];
      match cb.kind
      case AllKind =>
        var w' := Store(w, c, cb.(count := cb.count + 1, slots := cb.slots[i := Some(arg)]));
        SettleAppends(w', cb.target, Fulfilled, List(Dense(w'.combinators[c].slots)));
      case AllSettledKind =>
        var w' := Store(w, c, cb.(slots := cb.slots[i := Some(StatusRecord("fulfilled", arg))], count := cb.count + 1));
        SettleAppends(w', cb.target, Fulfilled, List(Dense(w'.combinators[c].slots)));
      case AnyKind =>
        SettleAppends(w, cb.target, Fulfilled, arg);
    }
    case OnReason(c, i) => {
      var cb := w.combinators[c];
      match cb.kind
      case AllKind =>
        SettleAppends(w, cb.target, Rejected, arg);
      case AllSettledKind =>
        var w' := Store(w, c, cb.(slots := cb.slots[i := Some(StatusRecord("rejected", arg))], count := cb.count + 1));
        SettleAppends(w', cb.target, Fulfilled, List(Dense(w'.combinators[c].slots)));
      case AnyKind =>
        var w' := Store(w, c, cb.(count := cb.count + 1));
        SettleAppends(w', cb.target, Rejected, NoneFulfilled);
    }
    case _ =>
  }

  /** Running a task leaves every task queued before it in place, ahead of
      whatever the task queues. */
  lemma ExecuteCallbackAppends(w: World, source: PromiseId, h: Handler, d: PromiseId)
    requires source < |w.promises| && d < |w.promises|
    requires Callable(w, h) && RefOk(|w.promises|, w.promises[source].result)
    ensures w.queue <= ExecuteCallback(w, source, h, d).queue
  {
    var (w2, out) := Invoke(w, h, w.promises[source].result);
    InvokeAppends(w, h, w.promises[source].result);
    match out
    case Thrown(e) => SettleAppends(w2, d, Rejected, e);
    case Normal(v) =>
      if v.Ref? {
        var t := Then(w2, v.id, Some(ResolveOf(d)), Some(RejectOf(d))).0;
        assert w2.queue <= t.queue;
      } else {
        SettleAppends(w2, d, Fulfilled, v);
      }
  }

  /** One turn of the host: take the oldest queued microtask and run it.
      The tasks behind it stay queued, in order, ahead of every task the
      turn adds (the queue is first in, first out).  With nothing queued
      there is nothing to do. */
  function Step(w: World): (r: World)
    requires WellFormed(w)
    ensures w.queue == [] ==> r == w
    ensures w.queue != [] ==> w.queue[1..] <= r.queue
    ensures |w.promises| <= |r.promises| && |r.combinators| == |w.combinators|
  {
    if w.queue == [] then w
    else
      var t := w.queue[0];
      assert TaskOk(w, t);
      assert t.handler.OnValue? || t.handler.OnReason? ==> CombinatorOk(|w.promises|, w.combinators[t.handler.c]);
      var rest := w.(queue := w.queue[1..]);
      ExecuteCallbackAppends(rest, t.source, t.handler, t.derived);
      ExecuteCallback(rest, t.source, t.handler, t.derived)
  }
}
