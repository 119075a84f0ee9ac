/** How each step of the world moves the closure counts `Live`: settling a
    promise turns its waiting callbacks into exactly as many queued tasks,
    `then` with ordinary handlers adds no closure, and running a task
    removes it. */
module Counting {
  import opened Types
  import opened Core
  import opened Chaining
  import opened Invariant

  lemma {:induction false} TaskCountAppend(ts: seq<Task>, us: seq<Task>, c: CombinatorId, i: nat)
    ensures TaskCount(ts + us, c, i) == TaskCount(ts, c, i) + TaskCount(us, c, i)
  {
    if ts == [] {
      assert ts + us == us;
    } else {
      assert (ts + us)[1..] == ts[1..] + us;
      TaskCountAppend(ts[1..], us, c, i);
    }
  }

  lemma {:induction false} CallbackCountAppend(cbs: seq<Callback>, cb: Callback, c: CombinatorId, i: nat)
    ensures CallbackCount(cbs + [cb], c, i) == CallbackCount(cbs, c, i) + (if ClosureOf(cb.onFulfilled, c, i) then 1 else 0)
  {
    if cbs != [] {
      assert (cbs + [cb])[1..] == cbs[1..] + [cb];
      CallbackCountAppend(cbs[1..], cb, c, i);
    }
  }

  lemma {:induction false} PendingCountAppend(ps: seq<PromiseRecord>, rec: PromiseRecord, c: CombinatorId, i: nat)
    ensures PendingCount(ps + [rec], c, i) == PendingCount(ps, c, i) + Waiting(rec, c, i)
  {
    if ps != [] {
      assert (ps + [rec])[1..] == ps[1..] + [rec];
      PendingCountAppend(ps[1..], rec, c, i);
    }
  }

  lemma {:induction false} PendingCountUpdate(ps: seq<PromiseRecord>, q: nat, rec: PromiseRecord, c: CombinatorId, i: nat)
    requires q < |ps|
    ensures PendingCount(ps[q := rec], c, i) + Waiting(ps[q], c, i) == PendingCount(ps, c, i) + Waiting(rec, c, i)
  {
    if q == 0 {
      assert ps[q := rec][1..] == ps[1..];
    } else {
      assert ps[q := rec][1..] == ps[1..][q - 1 := rec];
      PendingCountUpdate(ps[1..], q - 1, rec, c, i);
    }
  }

  /** The tasks queued at settlement run exactly the closures that were
      waiting as callbacks. */
  lemma {:induction false} DispatchCount(p: PromiseId, cbs: seq<Callback>, st: PromiseState, c: CombinatorId, i: nat)
    requires forall k :: 0 <= k < |cbs| ==> PairShaped(cbs[k])
    ensures TaskCount(Dispatch(p, cbs, st), c, i) == CallbackCount(cbs, c, i)
  {
    if cbs != [] {
      var init := cbs[..|cbs| - 1];
      var last := cbs[|cbs| - 1];
      assert cbs == init + [last];
      DispatchCount(p, init, st, c, i);
      TaskCountAppend(Dispatch(p, init, st), [Task(p, Branch(last, st), last.derived)], c, i);
      CallbackCountAppend(init, last, c, i);
      assert PairShaped(last);
    }
  }

  lemma AllocateLive(w: World, c: CombinatorId, i: nat)
    ensures Live(Allocate(w).0, c, i) == Live(w, c, i)
  {
    PendingCountAppend(w.promises, FreshRecord, c, i);
  }

  /** Settlement moves closures from callbacks to tasks one for one. */
  lemma SettleLive(w: World, p: PromiseId, st: PromiseState, v: Value, c: CombinatorId, i: nat)
    requires p < |w.promises| && st != Pending
    requires forall k :: 0 <= k < |w.promises[p].callbacks| ==> PairShaped(w.promises[p].callbacks[k])
    ensures Live(Settle(w, p, st, v), c, i) == Live(w, c, i)
  {
    var rec := w.promises[p];
    if rec.state == Pending {
      PendingCountUpdate(w.promises, p, PromiseRecord(st, v, rec.callbacks), c, i);
      TaskCountAppend(w.queue, Dispatch(p, rec.callbacks, st), c, i);
      DispatchCount(p, rec.callbacks, st, c, i);
    }
  }

  /** `then` with handlers that are not closures adds no closure. */
  lemma ThenLive(w: World, p: PromiseId, onFulfilled: Option<Handler>, onRejected: Option<Handler>, c: CombinatorId, i: nat)
    requires p < |w.promises|
    requires !IsClosure(DefaultFulfilled(onFulfilled)) && !IsClosure(DefaultRejected(onRejected))
    ensures Live(Then(w, p, onFulfilled, onRejected).0, c, i) == Live(w, c, i)
  {
    var f := DefaultFulfilled(onFulfilled);
    var g := DefaultRejected(onRejected);
    var (w1, d) := Allocate(w);
    AllocateLive(w, c, i);
    var rec := w.promises[p];
    if rec.state == Pending {
      PendingCountUpdate(w1.promises, p, rec.(callbacks := rec.callbacks + [Callback(f, g, d)]), c, i);
      CallbackCountAppend(rec.callbacks, Callback(f, g, d), c, i);
    } else {
      TaskCountAppend(w1.queue, [Task(p, if rec.state == Fulfilled then f else g, d)], c, i);
    }
  }

  /** The `then` of a combinator's `forEach` adds the one closure pair it
      registers. */
  lemma ThenPairLive(w: World, x: PromiseId, c0: CombinatorId, j0: nat, c: CombinatorId, i: nat)
    requires x < |w.promises|
    ensures Live(Then(w, x, Some(OnValue(c0, j0)), Some(OnReason(c0, j0))).0, c, i)
            == Live(w, c, i) + (if c == c0 && i == j0 then 1 else 0)
  {
    var f := OnValue(c0, j0);
    var g := OnReason(c0, j0);
    var (w1, d) := Allocate(w);
    AllocateLive(w, c, i);
    var rec := w.promises[x];
    if rec.state == Pending {
      PendingCountUpdate(w1.promises, x, rec.(callbacks := rec.callbacks + [Callback(f, g, d)]), c, i);
      CallbackCountAppend(rec.callbacks, Callback(f, g, d), c, i);
    } else {
      TaskCountAppend(w1.queue, [Task(x, if rec.state == Fulfilled then f else g, d)], c, i);
    }
  }

  /** Taking the oldest task off the queue. */
  lemma PopLive(w: World, c: CombinatorId, i: nat)
    requires w.queue != []
    ensures Live(w.(queue := w.queue[1..]), c, i) + (if ClosureOf(w.queue[0].handler, c, i) then 1 else 0) == Live(w, c, i)
  {
  }

  // ---------------------------------------------------------------------
  // The result array and the rejection count

  lemma {:induction false} CountSomeBound(slots: seq<Option<Value>>)
    ensures CountSome(slots) <= |slots|
    ensures CountSome(slots) == |slots| ==> forall j :: 0 <= j < |slots| ==> slots[j].Some?
  {
    if slots != [] {
      CountSomeBound(slots[1..]);
      forall j | 0 <= j < |slots| && CountSome(slots) == |slots|
        ensures slots[j].Some?
      {
        if j > 0 {
          assert slots[j] == slots[1..][j - 1];
        }
      }
    }
  }

  lemma {:induction false} CountSomeWrite(slots: seq<Option<Value>>, j: nat, v: Value)
    requires j < |slots| && slots[j].None?
    ensures CountSome(slots[j := Some(v)]) == CountSome(slots) + 1
  {
    if j == 0 {
      assert slots[j := Some(v)][1..] == slots[1..];
    } else {
      assert slots[j := Some(v)][1..] == slots[1..][j - 1 := Some(v)];
      CountSomeWrite(slots[1..], j - 1, v);
    }
  }

  lemma {:induction false} CountSomeEmpty(n: nat)
    ensures CountSome(seq(n, _ => None)) == 0
  {
    if n > 0 {
      var s: seq<Option<Value>> := seq(n, _ => None);
      assert s[1..] == seq(n - 1, _ => None);
      CountSomeEmpty(n - 1);
    }
  }

  lemma {:induction false} CountFiredBound(w: World, c: CombinatorId, inputs: seq<PromiseId>, k: nat)
    ensures CountFired(w, c, inputs, k) <= k
    ensures CountFired(w, c, inputs, k) == k ==> forall j :: 0 <= j < k ==> Fired(w, c, inputs, j)
  {
    if k > 0 {
      CountFiredBound(w, c, inputs, k - 1);
    }
  }

  /** The count depends only on which inputs have fired. */
  lemma {:induction false} CountFiredFrame(w: World, w': World, c: CombinatorId, inputs: seq<PromiseId>, k: nat)
    requires forall j :: 0 <= j < k ==> (Fired(w, c, inputs, j) <==> Fired(w', c, inputs, j))
    ensures CountFired(w', c, inputs, k) == CountFired(w, c, inputs, k)
  {
    if k > 0 {
      CountFiredFrame(w, w', c, inputs, k - 1);
    }
  }

  /** One more input fired. */
  lemma {:induction false} CountFiredBump(w: World, w': World, c: CombinatorId, inputs: seq<PromiseId>, i: nat, k: nat)
    requires i < k
    requires !Fired(w, c, inputs, i) && Fired(w', c, inputs, i)
    requires forall j :: 0 <= j < k && j != i ==> (Fired(w, c, inputs, j) <==> Fired(w', c, inputs, j))
    ensures CountFired(w', c, inputs, k) == CountFired(w, c, inputs, k) + 1
  {
    if k - 1 == i {
      CountFiredFrame(w, w', c, inputs, k - 1);
    } else {
      CountFiredBump(w, w', c, inputs, i, k - 1);
    }
  }
}
