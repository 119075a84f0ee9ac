/** The invariant every reachable world keeps, stated over the closures of
    the combinator calls.

    Closure pair `i` of call `c` (the two functions `all`, `allSettled` or
    `any` pass to `inputs[i].then`) can wait in two places: as a callback
    on a pending promise, or as a queued task.  `Live(w, c, i)` counts those
    places.  The invariant says that each pair waits at most once, and
    exactly once while its input is pending; that it waits only on its own
    input, in the branch matching that input's outcome; that no other code
    can settle a combined promise; and, per kind, what `count` and the
    result array mean at every moment. */
module Invariant {
  import opened Types
  import opened Aggregates

  predicate IsClosure(h: Handler) {
    h.OnValue? || h.OnReason?
  }

  predicate ClosureOf(h: Handler, c: CombinatorId, i: nat) {
    IsClosure(h) && h.c == c && h.index == i
  }

  /** Queued tasks that run a closure of pair `(c, i)`. */
  function TaskCount(ts: seq<Task>, c: CombinatorId, i: nat): (r: nat) {
    if ts == [] then 0
    else (if ClosureOf(ts[0].handler, c, i) then 1 else 0) + TaskCount(ts[1..], c, i)
  }

  /** Callback pairs that are closure pair `(c, i)`. */
  function CallbackCount(cbs: seq<Callback>, c: CombinatorId, i: nat): (r: nat) {
    if cbs == [] then 0
    else (if ClosureOf(cbs[0].onFulfilled, c, i) then 1 else 0) + CallbackCount(cbs[1..], c, i)
  }

  /** The callbacks of a record that can still be dispatched: only a
      pending promise will ever call its callbacks. */
  function Waiting(rec: PromiseRecord, c: CombinatorId, i: nat): (r: nat) {
    if rec.state == Pending then CallbackCount(rec.callbacks, c, i) else 0
  }

  function PendingCount(ps: seq<PromiseRecord>, c: CombinatorId, i: nat): (r: nat) {
    if ps == [] then 0 else Waiting(ps[0], c, i) + PendingCount(ps[1..], c, i)
  }

  /** How many times closure pair `(c, i)` can still run. */
  function Live(w: World, c: CombinatorId, i: nat): (r: nat) {
    TaskCount(w.queue, c, i) + PendingCount(w.promises, c, i)
  }

  // ---------------------------------------------------------------------
  // Where closures and settlement functions may appear

  /** `p` is not the promise returned by any combinator call. */
  predicate NotTarget(w: World, p: PromiseId) {
    forall c :: 0 <= c < |w.combinators| ==> w.combinators[c].target != p
  }

  /** No handler holds the `resolve` or `reject` of a combined promise: those
      stay private to the combinator's closures. */
  predicate Avoids(w: World, h: Handler) {
    (h.ResolveOf? || h.RejectOf?) ==> NotTarget(w, h.p)
  }

  /** A callback holding a closure holds the matching pair of one index. */
  predicate PairShaped(cb: Callback) {
    (IsClosure(cb.onFulfilled) || IsClosure(cb.onRejected)) ==>
      && cb.onFulfilled.OnValue? && cb.onRejected.OnReason?
      && cb.onRejected.c == cb.onFulfilled.c && cb.onRejected.index == cb.onFulfilled.index
  }

  /** Callback `cb` registered on promise `q`. */
  predicate CallbackSafe(w: World, q: PromiseId, cb: Callback) {
    && PairShaped(cb)
    && (cb.onFulfilled.OnValue? ==>
          && cb.onFulfilled.c < |w.combinators|
          && cb.onFulfilled.index < |w.combinators[cb.onFulfilled.c].inputs|
          && w.combinators[cb.onFulfilled.c].inputs[cb.onFulfilled.index] == q)
    && Avoids(w, cb.onFulfilled) && Avoids(w, cb.onRejected) && NotTarget(w, cb.derived)
  }

  /** A queued closure task runs against its own input, in the branch of
      the outcome that input has. */
  predicate TaskSafe(w: World, t: Task) {
    && (IsClosure(t.handler) ==>
          && t.handler.c < |w.combinators|
          && t.handler.index < |w.combinators[t.handler.c].inputs|
          && w.combinators[t.handler.c].inputs[t.handler.index] == t.source
          && t.source < |w.promises|
          && w.promises[t.source].state == (if t.handler.OnValue? then Fulfilled else Rejected))
    && Avoids(w, t.handler) && NotTarget(w, t.derived)
  }

  predicate DistinctTargets(w: World) {
    forall c1, c2 :: 0 <= c1 < c2 < |w.combinators| ==> w.combinators[c1].target != w.combinators[c2].target
  }

  predicate Shapes(w: World) {
    && (forall q, k :: 0 <= q < |w.promises| && 0 <= k < |w.promises[q].callbacks| ==>
          CallbackSafe(w, q, w.promises[q].callbacks[k]))
    && (forall k :: 0 <= k < |w.queue| ==> TaskSafe(w, w.queue[k]))
    && DistinctTargets(w)
  }

  // ---------------------------------------------------------------------
  // What `count` and the result array mean

  /** Written indices of a result array. */
  function CountSome(slots: seq<Option<Value>>): (r: nat) {
    if slots == [] then 0 else (if slots[0].Some? then 1 else 0) + CountSome(slots[1..])
  }

  /** The rejection closure of input `j` of `any` has already run. */
  predicate Fired(w: World, c: CombinatorId, inputs: seq<PromiseId>, j: nat) {
    && j < |inputs| && inputs[j] < |w.promises|
    && Live(w, c, j) == 0 && w.promises[inputs[j]].state == Rejected
  }

  /** How many of the first `k` inputs of `any` have counted a rejection. */
  function CountFired(w: World, c: CombinatorId, inputs: seq<PromiseId>, k: nat): (r: nat) {
    if k == 0 then 0
    else CountFired(w, c, inputs, k - 1) + (if Fired(w, c, inputs, k - 1) then 1 else 0)
  }

  /** The `{status, value}` object `allSettled` records for a settled input. */
  function Outcome(rec: PromiseRecord): (r: Value) {
    StatusRecord(if rec.state == Fulfilled then "fulfilled" else "rejected", rec.result)
  }

  /** `all`: `values[j]` is written exactly for the inputs whose fulfilment
      closure has run, and holds that input's value; `count` is the number
      of written indices; the promise is fulfilled only with the full array
      and rejected only with the reason of a rejected input. */
  predicate AllInv(w: World, cb: Combinator, c: CombinatorId)
    requires CombinatorOk(|w.promises|, cb) && cb.kind != AnyKind
  {
    var n := |cb.inputs|;
    var t := w.promises[cb.target];
    && cb.count == CountSome(cb.slots)
    && (forall j :: 0 <= j < n && cb.slots[j].Some? ==>
          && Live(w, c, j) == 0
          && w.promises[cb.inputs[j]].state == Fulfilled
          && cb.slots[j].value == w.promises[cb.inputs[j]].result)
    && (t.state == Fulfilled ==>
          n > 0 && cb.count == n && (forall j :: 0 <= j < n ==> cb.slots[j].Some?) && t.result == List(Dense(cb.slots)))
    && (t.state == Rejected ==>
          exists j :: 0 <= j < n && w.promises[cb.inputs[j]].state == Rejected && w.promises[cb.inputs[j]].result == t.result)
  }

  /** `allSettled`: `results[j]` is written exactly for the inputs whose
      closure has run, and is that input's `{status, value}`; the promise
      is never rejected and is fulfilled only with the full array. */
  predicate AllSettledInv(w: World, cb: Combinator, c: CombinatorId)
    requires CombinatorOk(|w.promises|, cb) && cb.kind != AnyKind
  {
    var n := |cb.inputs|;
    var t := w.promises[cb.target];
    && cb.count == CountSome(cb.slots)
    && (forall j :: 0 <= j < n && cb.slots[j].Some? ==>
          && Live(w, c, j) == 0
          && w.promises[cb.inputs[j]].state != Pending
          && cb.slots[j].value == Outcome(w.promises[cb.inputs[j]]))
    && t.state != Rejected
    && (t.state == Fulfilled ==>
          n > 0 && cb.count == n && (forall j :: 0 <= j < n ==> cb.slots[j].Some?) && t.result == List(Dense(cb.slots)))
  }

  /** `any`: `count` is the number of inputs whose rejection closure has
      run; the promise is fulfilled only with an input's value and
      rejected only once every input's rejection was counted. */
  predicate AnyInv(w: World, cb: Combinator, c: CombinatorId)
    requires CombinatorOk(|w.promises|, cb)
  {
    var n := |cb.inputs|;
    var t := w.promises[cb.target];
    && cb.count == CountFired(w, c, cb.inputs, n)
    && (t.state == Fulfilled ==>
          exists j :: 0 <= j < n && w.promises[cb.inputs[j]].state == Fulfilled && w.promises[cb.inputs[j]].result == t.result)
    && (t.state == Rejected ==> n > 0 && cb.count == n && t.result == NoneFulfilled)
  }

  predicate CombInv(w: World, c: CombinatorId) {
    && c < |w.combinators|
    && CombinatorOk(|w.promises|, w.combinators[c])
    && match w.combinators[c].kind
       case AllKind => AllInv(w, w.combinators[c], c)
       case AllSettledKind => AllSettledInv(w, w.combinators[c], c)
       case AnyKind => AnyInv(w, w.combinators[c], c)
  }

  /** Closure pair `i` of call `c` waits at most once, and exactly once
      while its input is pending. */
  predicate Unique(w: World, c: CombinatorId, i: nat) {
    && c < |w.combinators| && i < |w.combinators[c].inputs|
    && w.combinators[c].inputs[i] < |w.promises|
    && Live(w, c, i) <= 1
    && (w.promises[w.combinators[c].inputs[i]].state == Pending ==> Live(w, c, i) == 1)
  }

  predicate AllUnique(w: World) {
    forall c, i :: 0 <= c < |w.combinators| && 0 <= i < |w.combinators[c].inputs| ==> Unique(w, c, i)
  }

  predicate AllCombInv(w: World) {
    forall c :: 0 <= c < |w.combinators| ==> CombInv(w, c)
  }

  predicate Inv(w: World) {
    WellFormed(w) && Shapes(w) && AllCombInv(w) && AllUnique(w)
  }
}
