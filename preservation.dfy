/** The operations that do not run a combinator closure keep the
    invariant: allocation, settling a promise that is not a combined
    promise, `then` with handlers that are not closures, and running a
    task whose handler is not a closure. */
module Preservation {
  import opened Types
  import opened Core
  import opened Aggregates
  import opened Chaining
  import opened CoreProofs
  import opened Wellformedness
  import opened Invariant
  import opened Counting
  import opened Frame
  import ChainingProofs

  /** No closure count changes. */
  predicate AllSameLive(w: World, w': World) {
    forall c, j :: 0 <= c < |w.combinators| && 0 <= j < |w.combinators[c].inputs| ==> Live(w', c, j) == Live(w, c, j)
  }

  /** Every combined promise keeps its state and result. */
  predicate TargetsKept(w: World, w': World) {
    forall c :: 0 <= c < |w.combinators| ==>
      var t := w.combinators[c].target;
      t < |w.promises| && t < |w'.promises|
      && w'.promises[t].state == w.promises[t].state && w'.promises[t].result == w.promises[t].result
  }

  /** A step that keeps the calls, the combined promises' outcomes, the
      settled promises and every closure count keeps the invariant, once
      well-formedness and the placement rules are shown. */
  lemma InvCarry(w: World, w': World)
    requires Inv(w) && WellFormed(w') && Shapes(w')
    requires w'.combinators == w.combinators
    requires KeepsSettled(w, w') && TargetsKept(w, w') && AllSameLive(w, w')
    ensures Inv(w')
  {
    forall c | 0 <= c < |w.combinators|
      ensures CombInv(w', c) && UniqueFor(w', c)
    {
      assert CombInv(w, c);
      assert UniqueFor(w, c);
      CarryOver(w, w', c);
    }
    forall c, i | 0 <= c < |w'.combinators| && 0 <= i < |w'.combinators[c].inputs|
      ensures Unique(w', c, i)
    {
      assert UniqueFor(w', c);
    }
  }

  lemma AllocateInv(w: World)
    requires Inv(w)
    ensures Inv(Allocate(w).0)
  {
    var w' := Allocate(w).0;
    AllocateWellFormed(w);
    ShapesFrame(w, w');
    forall c, j | 0 <= c < |w.combinators| && 0 <= j < |w.combinators[c].inputs|
      ensures Live(w', c, j) == Live(w, c, j)
    {
      AllocateLive(w, c, j);
    }
    InvCarry(w, w');
  }

  /** Every promise of `w` is not a combined promise of a fresh world. */
  lemma FreshNotTarget(w: World)
    requires WellFormed(w)
    ensures NotTarget(w, |w.promises|)
  {
    forall c | 0 <= c < |w.combinators|
      ensures w.combinators[c].target != |w.promises|
    {
      assert CombinatorOk(|w.promises|, w.combinators[c]);
    }
  }

  // ---------------------------------------------------------------------
  // Settlement

  /** Settlement keeps the placement rules: the tasks it queues run each
      callback's branch for the outcome the promise now has. */
  lemma SettleShapes(w: World, p: PromiseId, st: PromiseState, v: Value)
    requires Shapes(w) && p < |w.promises| && st != Pending
    ensures Shapes(Settle(w, p, st, v))
  {
    var rec := w.promises[p];
    if rec.state == Pending {
      var w' := Settle(w, p, st, v);
      SettleDispatch(w, p, st, v);
      assert SameCalls(w, w');
      forall q, k | 0 <= q < |w'.promises| && 0 <= k < |w'.promises[q].callbacks|
        ensures CallbackSafe(w', q, w'.promises[q].callbacks[k])
      {
        CallbackSafeFrame(w, w', q, w.promises[q].callbacks[k]);
      }
      forall k | 0 <= k < |w'.queue|
        ensures TaskSafe(w', w'.queue[k])
      {
        if k < |w.queue| {
          assert w'.queue[k] == w.queue[k];
          assert TaskSafe(w, w.queue[k]);
          TaskSafeFrame(w, w', w.queue[k]);
        } else {
          var cb := rec.callbacks[k - |w.queue|];
          assert CallbackSafe(w, p, cb);
          assert w'.queue[k] == Task(p, Branch(cb, st), cb.derived);
          NotTargetFrame(w, w', cb.derived);
          if cb.onFulfilled.ResolveOf? || cb.onFulfilled.RejectOf? {
            NotTargetFrame(w, w', cb.onFulfilled.p);
          }
          if cb.onRejected.ResolveOf? || cb.onRejected.RejectOf? {
            NotTargetFrame(w, w', cb.onRejected.p);
          }
        }
      }
      DistinctTargetsFrame(w, w');
    }
  }

  lemma SettleCounts(w: World, p: PromiseId, st: PromiseState, v: Value)
    requires Shapes(w) && p < |w.promises| && st != Pending
    ensures AllSameLive(w, Settle(w, p, st, v))
    ensures KeepsSettled(w, Settle(w, p, st, v))
  {
    forall c, j | 0 <= c < |w.combinators| && 0 <= j < |w.combinators[c].inputs|
      ensures Live(Settle(w, p, st, v), c, j) == Live(w, c, j)
    {
      forall k | 0 <= k < |w.promises[p].callbacks|
        ensures PairShaped(w.promises[p].callbacks[k])
      {
        assert CallbackSafe(w, p, w.promises[p].callbacks[k]);
      }
      SettleLive(w, p, st, v, c, j);
    }
  }

  /** Settling a promise that no combinator call returned. */
  lemma SettleInv(w: World, p: PromiseId, st: PromiseState, v: Value)
    requires Inv(w) && p < |w.promises| && st != Pending && RefOk(|w.promises|, v)
    requires NotTarget(w, p)
    ensures Inv(Settle(w, p, st, v))
  {
    var w' := Settle(w, p, st, v);
    SettleWellFormed(w, p, st, v);
    SettleShapes(w, p, st, v);
    SettleCounts(w, p, st, v);
    forall c | 0 <= c < |w.combinators|
      ensures w.combinators[c].target < |w.promises|
    {
      assert CombinatorOk(|w.promises|, w.combinators[c]);
    }
    InvCarry(w, w');
  }

  // ---------------------------------------------------------------------
  // `then` with ordinary handlers

  /** A handler a program can pass to `then`: any function except the
      combinators' private closures, and no combined promise's own
      `resolve` or `reject`. */
  predicate Ordinary(w: World, h: Handler) {
    HandlerOk(w, h) && !IsClosure(h) && Avoids(w, h)
  }

  predicate OptionalOrdinary(w: World, h: Option<Handler>) {
    h.Some? ==> Ordinary(w, h.value)
  }

  lemma ThenShapes(w: World, p: PromiseId, onFulfilled: Option<Handler>, onRejected: Option<Handler>)
    requires WellFormed(w) && Shapes(w) && p < |w.promises|
    requires OptionalOrdinary(w, onFulfilled) && OptionalOrdinary(w, onRejected)
    ensures Shapes(Then(w, p, onFulfilled, onRejected).0)
  {
    var (w', d) := Then(w, p, onFulfilled, onRejected);
    var f := DefaultFulfilled(onFulfilled);
    var g := DefaultRejected(onRejected);
    ChainingProofs.ThenDefers(w, p, onFulfilled, onRejected);
    assert SameCalls(w, w');
    FreshNotTarget(w);
    NotTargetFrame(w, w', d);
    if f.ResolveOf? || f.RejectOf? {
      NotTargetFrame(w, w', f.p);
    }
    if g.ResolveOf? || g.RejectOf? {
      NotTargetFrame(w, w', g.p);
    }
    forall q, k | 0 <= q < |w'.promises| && 0 <= k < |w'.promises[q].callbacks|
      ensures CallbackSafe(w', q, w'.promises[q].callbacks[k])
    {
      if q < |w.promises| && k < |w.promises[q].callbacks| {
        assert w'.promises[q].callbacks[k] == w.promises[q].callbacks[k];
        CallbackSafeFrame(w, w', q, w.promises[q].callbacks[k]);
      } else {
        assert q == p && w'.promises[q].callbacks[k] == Callback(f, g, d);
      }
    }
    forall k | 0 <= k < |w'.queue|
      ensures TaskSafe(w', w'.queue[k])
    {
      if k < |w.queue| {
        assert w'.queue[k] == w.queue[k];
        assert TaskSafe(w, w.queue[k]);
        TaskSafeFrame(w, w', w.queue[k]);
      }
    }
    DistinctTargetsFrame(w, w');
  }

  lemma ThenInv(w: World, p: PromiseId, onFulfilled: Option<Handler>, onRejected: Option<Handler>)
    requires Inv(w) && p < |w.promises|
    requires OptionalOrdinary(w, onFulfilled) && OptionalOrdinary(w, onRejected)
    ensures Inv(Then(w, p, onFulfilled, onRejected).0)
  {
    var w' := Then(w, p, onFulfilled, onRejected).0;
    ThenWellFormed(w, p, onFulfilled, onRejected);
    ThenShapes(w, p, onFulfilled, onRejected);
    ChainingProofs.ThenDefers(w, p, onFulfilled, onRejected);
    forall c, j | 0 <= c < |w.combinators| && 0 <= j < |w.combinators[c].inputs|
      ensures Live(w', c, j) == Live(w, c, j)
    {
      ThenLive(w, p, onFulfilled, onRejected, c, j);
    }
    forall c | 0 <= c < |w.combinators|
      ensures w.combinators[c].target < |w.promises|
    {
      assert CombinatorOk(|w.promises|, w.combinators[c]);
    }
    InvCarry(w, w');
  }

  // ---------------------------------------------------------------------
  // Running a task whose handler is not a closure

  lemma PopShapes(w: World)
    requires WellFormed(w) && Shapes(w) && w.queue != []
    ensures var w1 := w.(queue := w.queue[1..]);
      WellFormed(w1) && Shapes(w1)
  {
    var w1 := w.(queue := w.queue[1..]);
    assert forall k :: 0 <= k < |w1.queue| ==> w1.queue[k] == w.queue[k + 1];
  }

  lemma PopInv(w: World)
    requires Inv(w) && w.queue != [] && !IsClosure(w.queue[0].handler)
    ensures Inv(w.(queue := w.queue[1..]))
  {
    var w1 := w.(queue := w.queue[1..]);
    PopShapes(w);
    forall c, j | 0 <= c < |w.combinators| && 0 <= j < |w.combinators[c].inputs|
      ensures Live(w1, c, j) == Live(w, c, j)
    {
      PopLive(w, c, j);
    }
    forall c | 0 <= c < |w.combinators|
      ensures w.combinators[c].target < |w.promises|
    {
      assert CombinatorOk(|w.promises|, w.combinators[c]);
    }
    InvCarry(w, w1);
  }

  /** `executeCallback` with an ordinary handler, or with the `resolve` /
      `reject` of a promise that is not a combined one. */
  lemma ExecuteCallbackInv(w: World, source: PromiseId, h: Handler, d: PromiseId)
    requires Inv(w) && source < |w.promises| && d < |w.promises|
    requires Callable(w, h) && !IsClosure(h) && Avoids(w, h) && NotTarget(w, d)
    ensures RefOk(|w.promises|, w.promises[source].result)
    ensures Inv(ExecuteCallback(w, source, h, d))
  {
    assert RecordOk(w, w.promises[source]);
    var arg := w.promises[source].result;
    var (w2, out) := Invoke(w, h, arg);
    match h {
      case ResolveOf(q) => SettleInv(w, q, Fulfilled, arg);
      case RejectOf(q) => SettleInv(w, q, Rejected, arg);
      case _ =>
    }
    assert w2.combinators == w.combinators;
    match out {
      case Thrown(e) =>
        SettleInv(w2, d, Rejected, e);
      case Normal(v) =>
        if v.Ref? {
          ThenInv(w2, v.id, Some(ResolveOf(d)), Some(RejectOf(d)));
        } else {
          SettleInv(w2, d, Fulfilled, v);
        }
    }
  }
}
