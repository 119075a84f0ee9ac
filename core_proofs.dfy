/** Properties of the state machine: settlement happens once, queues one
    task per callback in order, and an executor's first call wins. */
module CoreProofs {
  import opened Types
  import opened Core

  /** `new Promise(...)` allocates one pending record with no result and
      no callbacks at the next id; every older promise, the queue and the
      combinator calls are untouched. */
  lemma AllocateFresh(w: World)
    ensures var (w', p) := Allocate(w);
      && p == |w.promises| && |w'.promises| == |w.promises| + 1
      && w'.promises[p] == PromiseRecord(Pending, Undefined, [])
      && (forall q :: 0 <= q < |w.promises| ==> w'.promises[q] == w.promises[q])
      && w'.queue == w.queue && w'.combinators == w.combinators
  {
  }

  /** The tasks queued at settlement: exactly one per callback, the k-th
      running the matching branch of the k-th callback for its derived
      promise. */
  lemma {:induction false} DispatchSpec(p: PromiseId, cbs: seq<Callback>, st: PromiseState)
    ensures |Dispatch(p, cbs, st)| == |cbs|
    ensures forall k :: 0 <= k < |cbs| ==> Dispatch(p, cbs, st)[k] == Task(p, Branch(cbs[k], st), cbs[k].derived)
  {
    if cbs != [] {
      var init := cbs[..|cbs| - 1];
      DispatchSpec(p, init, st);
      assert forall k :: 0 <= k < |init| ==> init[k] == cbs[k];
    }
  }

  /** Settle-once: settling a promise that is no longer pending changes
      nothing and queues nothing. */
  lemma SettleOnce(w: World, p: PromiseId, st: PromiseState, v: Value)
    requires p < |w.promises| && st != Pending
    requires w.promises[p].state != Pending
    ensures Settle(w, p, st, v) == w
  {
  }

  /** Settlement of a pending promise: it takes the state and the result,
      keeps its callbacks, every other promise and the combinator state are
      untouched, and the queue grows by exactly one task per callback, in
      callback order, each running that callback's matching branch. */
  lemma SettleDispatch(w: World, p: PromiseId, st: PromiseState, v: Value)
    requires p < |w.promises| && st != Pending
    requires w.promises[p].state == Pending
    ensures var w' := Settle(w, p, st, v);
      && |w'.promises| == |w.promises|
      && w'.promises[p] == PromiseRecord(st, v, w.promises[p].callbacks)
      && (forall q :: 0 <= q < |w.promises| && q != p ==> w'.promises[q] == w.promises[q])
      && w'.combinators == w.combinators
      && |w'.queue| == |w.queue| + |w.promises[p].callbacks|
      && w'.queue[..|w.queue|] == w.queue
      && forall k :: 0 <= k < |w.promises[p].callbacks| ==>
           w'.queue[|w.queue| + k] == Task(p, Branch(w.promises[p].callbacks[k], st), w.promises[p].callbacks[k].derived)
  {
    DispatchSpec(p, w.promises[p].callbacks, st);
  }

  function StateOf(call: Call): (r: PromiseState) {
    if call.CallResolve? then Fulfilled else Rejected
  }

  /** Once the promise is settled, the executor's further calls are
      no-ops. */
  lemma {:induction false} RunCallsSettled(w: World, p: PromiseId, calls: seq<Call>)
    requires p < |w.promises| && w.promises[p].state != Pending
    ensures RunCalls(w, p, calls) == w
  {
    if calls != [] {
      RunCallsSettled(w, p, calls[..|calls| - 1]);
    }
  }

  /** The first call of the executor on a pending promise decides it. */
  lemma {:induction false} RunCallsFirstWins(w: World, p: PromiseId, calls: seq<Call>)
    requires p < |w.promises| && w.promises[p].state == Pending && calls != []
    ensures RunCalls(w, p, calls) == Perform(w, p, calls[0])
  {
    if |calls| > 1 {
      var init := calls[..|calls| - 1];
      RunCallsFirstWins(w, p, init);
      assert init[0] == calls[0];
    }
  }

  /** `new Promise(executor)` on a fresh promise: with no call and no throw
      it stays pending; otherwise the first of the executor's calls, with a
      throw counted as a final `reject(err)`, settles it.  Nothing is queued
      and no other promise changes. */
  lemma ConstructOutcome(w: World, ex: Executor)
    ensures var (w', p) := Construct(w, ex);
      var attempts := ex.calls + (if ex.throws.Some? then [CallReject(ex.throws.value)] else []);
      && p == |w.promises|
      && |w'.promises| == |w.promises| + 1
      && w'.promises[..|w.promises|] == w.promises
      && w'.queue == w.queue
      && w'.combinators == w.combinators
      && (attempts == [] ==> w'.promises[p] == FreshRecord)
      && (attempts != [] ==> w'.promises[p] == PromiseRecord(StateOf(attempts[0]), attempts[0].v, []))
  {
    var (w1, p) := Allocate(w);
    var attempts := ex.calls + (if ex.throws.Some? then [CallReject(ex.throws.value)] else []);
    var w2 := RunCalls(w1, p, ex.calls);
    if ex.calls != [] {
      RunCallsFirstWins(w1, p, ex.calls);
      assert attempts[0] == ex.calls[0];
      if ex.throws.Some? {
        SettleOnce(w2, p, Rejected, ex.throws.value);
      }
    }
  }

  /** An executor that throws after it has already settled its promise
      leaves no trace; one that throws before any call rejects the promise
      with the thrown value. */
  lemma ExecutorThrow(w: World, calls: seq<Call>, err: Value)
    ensures calls != [] ==> Construct(w, Executor(calls, Some(err))) == Construct(w, Executor(calls, None))
    ensures calls == [] ==> Construct(w, Executor(calls, Some(err))).0.promises[|w.promises|] == PromiseRecord(Rejected, err, [])
  {
    if calls != [] {
      var (w1, p) := Allocate(w);
      RunCallsFirstWins(w1, p, calls);
      SettleOnce(RunCalls(w1, p, calls), p, Rejected, err);
    }
  }
}
