/** Properties of `then`, `catch` and `executeCallback`. */
module ChainingProofs {
  import opened Types
  import opened Core
  import opened Chaining
  import opened Statics
  import opened CoreProofs
  import opened Wellformedness

  /** The defaults `then` puts in place of a missing handler: `value =>
      value` returns its argument and `reason => { throw reason }` throws
      it; neither changes any promise, task or combinator call.  A given
      handler is used as it is. */
  lemma DefaultHandlers(w: World, arg: Value, h: Handler)
    ensures Invoke(w, DefaultFulfilled(None), arg) == (w, Normal(arg))
    ensures Invoke(w, DefaultRejected(None), arg) == (w, Thrown(arg))
    ensures DefaultFulfilled(Some(h)) == h && DefaultRejected(Some(h)) == h
  {
  }

  /** A turn on a non-empty queue runs the oldest task, on the world where
      that task is taken off the queue, and leaves the tasks behind it
      queued, in order, ahead of everything the task adds. */
  lemma StepRunsOldest(w: World, t: Task, rest: seq<Task>)
    requires WellFormed(w) && w.queue == [t] + rest
    ensures TaskOk(w, t) && RefOk(|w.promises|, w.promises[t.source].result)
    ensures var r := Step(w);
      && r == ExecuteCallback(w.(queue := rest), t.source, t.handler, t.derived)
      && rest <= r.queue
  {
    assert w.queue[0] == t && w.queue[1..] == rest;
    assert TaskOk(w, w.queue[0]);
    assert RecordOk(w, w.promises[t.source]);
  }

  /** `then` runs no handler: it only adds a pending promise, and either
      queues exactly one task (settled `p`) or appends exactly one callback
      pair to `p` (pending `p`).  `p`'s state and result, every other
      promise and the combinator state are unchanged. */
  lemma ThenDefers(w: World, p: PromiseId, onFulfilled: Option<Handler>, onRejected: Option<Handler>)
    requires p < |w.promises|
    ensures var (w', d) := Then(w, p, onFulfilled, onRejected);
      var rec := w.promises[p];
      var f := DefaultFulfilled(onFulfilled);
      var g := DefaultRejected(onRejected);
      && d == |w.promises| && w'.promises[d] == FreshRecord
      && w'.promises[p].state == rec.state && w'.promises[p].result == rec.result
      && (forall q :: 0 <= q < |w.promises| && q != p ==> w'.promises[q] == w.promises[q])
      && w'.combinators == w.combinators
      && (rec.state == Fulfilled ==> w'.queue == w.queue + [Task(p, f, d)] && w'.promises[p] == rec)
      && (rec.state == Rejected ==> w'.queue == w.queue + [Task(p, g, d)] && w'.promises[p] == rec)
      && (rec.state == Pending ==> w'.queue == w.queue && w'.promises[p].callbacks == rec.callbacks + [Callback(f, g, d)])
  {
  }

  /** The handlers a user passes: ordinary functions, which return or throw
      and touch no promise. */
  predicate Plain(h: Handler) {
    h.Identity? || h.Rethrow? || h.Return? || h.Throw?
  }

  /** The derived promise takes the handler's outcome: a throw rejects it
      with the thrown value, a non-promise return value fulfils it, and a
      returned promise `q` is adopted by registering `d`'s `resolve` and
      `reject` on `q` through a further `then`. */
  lemma HandlerOutcome(w: World, source: PromiseId, h: Handler, d: PromiseId)
    requires source < |w.promises| && d < |w.promises| && w.promises[d].state == Pending
    requires Plain(h) && Callable(w, h) && RefOk(|w.promises|, w.promises[source].result)
    ensures var out := Invoke(w, h, w.promises[source].result).1;
      var w' := ExecuteCallback(w, source, h, d);
      && (out.Thrown? ==> w'.promises[d].state == Rejected && w'.promises[d].result == out.v)
      && (out.Normal? && !out.v.Ref? ==> w'.promises[d].state == Fulfilled && w'.promises[d].result == out.v)
      && (out.Normal? && out.v.Ref? ==>
            var q := out.v.id;
            var e := |w.promises|;
            && w'.promises[d].state == Pending && w'.promises[d].result == w.promises[d].result
            && (w.promises[q].state == Pending ==>
                  w'.promises[q].callbacks == w.promises[q].callbacks + [Callback(ResolveOf(d), RejectOf(d), e)])
            && (w.promises[q].state == Fulfilled ==> w'.queue == w.queue + [Task(q, ResolveOf(d), e)])
            && (w.promises[q].state == Rejected ==> w'.queue == w.queue + [Task(q, RejectOf(d), e)]))
  {
  }

  /** Running the adoption task: `d`'s own `resolve`/`reject`, called by
      the promise `q` it adopted, gives `d` exactly `q`'s state and result
      (without unwrapping it again). */
  lemma AdoptionCompletes(w: World, q: PromiseId, d: PromiseId, e: PromiseId)
    requires q < |w.promises| && d < |w.promises| && e < |w.promises| && d != e
    requires w.promises[q].state != Pending && w.promises[d].state == Pending
    requires RefOk(|w.promises|, w.promises[q].result)
    ensures var h := if w.promises[q].state == Fulfilled then ResolveOf(d) else RejectOf(d);
      var w' := ExecuteCallback(w, q, h, e);
      && w'.promises[d].state == w.promises[q].state
      && w'.promises[d].result == w.promises[q].result
  {
  }

  /** After one turn of the queue, a `then` whose handlers are missing
      passes the settled outcome through: a value by the default identity,
      a reason by the default rethrow. */
  lemma DefaultsPassThrough(w: World, p: PromiseId)
    requires WellFormed(w) && p < |w.promises| && w.queue == []
    requires w.promises[p].state != Pending && !w.promises[p].result.Ref?
    ensures var (w1, d) := Then(w, p, None, None);
      && WellFormed(w1)
      && Step(w1).promises[d] == PromiseRecord(w.promises[p].state, w.promises[p].result, [])
  {
    ThenWellFormed(w, p, None, None);
    assert RecordOk(w, w.promises[p]);
  }

  /** `catch(h)` after one turn of an idle queue, for a promise settled
      with a non-promise: a fulfilment passes through untouched; a
      rejection is handed to `h`, where a plain return recovers and fulfils
      and a throw rejects with the thrown value; a missing `h` rethrows the
      reason. */
  lemma CatchOutcome(w: World, p: PromiseId, onRejected: Option<Handler>)
    requires WellFormed(w) && p < |w.promises| && w.queue == []
    requires w.promises[p].state != Pending && !w.promises[p].result.Ref?
    requires onRejected.Some? ==>
      var h := onRejected.value;
      HandlerOk(w, h) && ((h.Return? && !h.v.Ref?) || h.Throw?)
    ensures var (w1, d) := Catch(w, p, onRejected);
      var rec := w.promises[p];
      && WellFormed(w1)
      && (rec.state == Fulfilled ==> Step(w1).promises[d] == PromiseRecord(Fulfilled, rec.result, []))
      && (rec.state == Rejected && onRejected.None? ==> Step(w1).promises[d] == PromiseRecord(Rejected, rec.result, []))
      && (rec.state == Rejected && onRejected.Some? && onRejected.value.Return? ==>
            Step(w1).promises[d] == PromiseRecord(Fulfilled, onRejected.value.v, []))
      && (rec.state == Rejected && onRejected.Some? && onRejected.value.Throw? ==>
            Step(w1).promises[d] == PromiseRecord(Rejected, onRejected.value.e, []))
  {
    ThenWellFormed(w, p, None, onRejected);
    assert RecordOk(w, w.promises[p]);
  }

  /** `Promise.reject(r)` is rejected with `r` at once, even when `r` is a
      promise, and queues nothing. */
  lemma PromiseRejectImmediate(w: World, reason: Value)
    ensures var (w', p) := PromiseReject(w, reason);
      && p == |w.promises|
      && w'.promises == w.promises + [PromiseRecord(Rejected, reason, [])]
      && w'.queue == w.queue && w'.combinators == w.combinators
  {
  }

  /** `Promise.resolve(v)` of a non-promise is fulfilled with `v` at once
      and queues nothing. */
  lemma PromiseResolveImmediate(w: World, value: Value)
    requires !value.Ref?
    ensures var (w', p) := PromiseResolve(w, value);
      && p == |w.promises|
      && w'.promises == w.promises + [PromiseRecord(Fulfilled, value, [])]
      && w'.queue == w.queue && w'.combinators == w.combinators
  {
  }

  /** `Promise.resolve(q)` of a settled promise is pending at first and,
      after one turn of an otherwise idle queue, carries `q`'s outcome. */
  lemma PromiseResolveAdoptsSettled(w: World, q: PromiseId)
    requires WellFormed(w) && q < |w.promises| && w.queue == []
    requires w.promises[q].state != Pending
    ensures var (w1, p) := PromiseResolve(w, Ref(q));
      && w1.promises[p].state == Pending
      && WellFormed(w1)
      && Step(w1).promises[p].state == w.promises[q].state
      && Step(w1).promises[p].result == w.promises[q].result
  {
    PromiseResolveWellFormed(w, Ref(q));
    assert RecordOk(w, w.promises[q]);
  }

  /** What `Promise.resolve(q)` of a pending `q` leaves behind: a pending
      promise `p`, and on `q` one callback pair holding `p`'s settlement
      functions. */
  lemma AdoptRegisters(w: World, q: PromiseId)
    requires WellFormed(w) && q < |w.promises| && w.queue == [] && w.promises[q] == FreshRecord
    ensures var (w1, p) := PromiseResolve(w, Ref(q));
      && p == |w.promises| && |w1.promises| == p + 2 && w1.queue == []
      && w1.promises[p].state == Pending
      && w1.promises[q] == PromiseRecord(Pending, Undefined, [Callback(ResolveOf(p), RejectOf(p), p + 1)])
  {
  }

  /** One turn that runs `p`'s settlement function against a settled `q`
      gives `p` the outcome of `q`. */
  lemma AdoptRuns(w: World, q: PromiseId, p: PromiseId, e: PromiseId, st: PromiseState, v: Value)
    requires WellFormed(w) && q < |w.promises| && p < |w.promises| && e < |w.promises| && p != e
    requires st != Pending && w.promises[q].state == st && w.promises[q].result == v
    requires w.promises[p].state == Pending
    requires w.queue == [Task(q, if st == Fulfilled then ResolveOf(p) else RejectOf(p), e)]
    ensures p < |Step(w).promises| && Step(w).promises[p].state == st && Step(w).promises[p].result == v
  {
    var h := if st == Fulfilled then ResolveOf(p) else RejectOf(p);
    var w3 := w.(queue := []);
    assert Step(w) == ExecuteCallback(w3, q, h, e);
    var w4 := Settle(w3, p, st, v);
    assert Invoke(w3, h, v) == (w4, Normal(Undefined));
    assert ExecuteCallback(w3, q, h, e) == Settle(w4, e, Fulfilled, Undefined);
  }

  /** Settling `q`, whose one callback pair holds `p`'s settlement
      functions, queues the matching one. */
  lemma AdoptSettles(w: World, q: PromiseId, p: PromiseId, e: PromiseId, st: PromiseState, v: Value)
    requires q < |w.promises| && p < |w.promises| && p != q && st != Pending && w.queue == []
    requires w.promises[q] == PromiseRecord(Pending, Undefined, [Callback(ResolveOf(p), RejectOf(p), e)])
    ensures var w2 := Settle(w, q, st, v);
      && w2.queue == [Task(q, if st == Fulfilled then ResolveOf(p) else RejectOf(p), e)]
      && w2.promises[q].state == st && w2.promises[q].result == v
      && w2.promises[p] == w.promises[p] && |w2.promises| == |w.promises|
  {
    var cbs := [Callback(ResolveOf(p), RejectOf(p), e)];
    assert cbs[..0] == [];
    assert Dispatch(q, cbs, st) == [Task(q, Branch(cbs[0], st), e)];
  }

  /** `Promise.resolve(q)` of any pending `q` appends one callback pair
      holding the new promise `p`'s settlement functions to `q`'s
      callbacks; when `q` settles, `p` is still pending and the task that
      hands `q`'s outcome to `p` is queued after the existing queue and
      after the tasks of `q`'s earlier callbacks.  Running that task is
      `AdoptionCompletes`. */
  lemma PromiseResolveQueuesAdoption(w: World, q: PromiseId, st: PromiseState, v: Value)
    requires q < |w.promises| && w.promises[q].state == Pending && st != Pending
    ensures var (w1, p) := PromiseResolve(w, Ref(q));
      var w2 := Settle(w1, q, st, v);
      var h := if st == Fulfilled then ResolveOf(p) else RejectOf(p);
      && p == |w.promises| && p < |w1.promises| && w1.queue == w.queue
      && w1.promises[p] == FreshRecord
      && w1.promises[q].callbacks == w.promises[q].callbacks + [Callback(ResolveOf(p), RejectOf(p), p + 1)]
      && w2.promises[p] == FreshRecord
      && w2.promises[q].state == st && w2.promises[q].result == v
      && w2.queue == w.queue + Dispatch(q, w.promises[q].callbacks, st) + [Task(q, h, p + 1)]
  {
    var (w1, p) := PromiseResolve(w, Ref(q));
    var cbs := w.promises[q].callbacks;
    var cb := Callback(ResolveOf(p), RejectOf(p), p + 1);
    ThenDefers(Allocate(w).0, q, Some(ResolveOf(p)), Some(RejectOf(p)));
    assert (cbs + [cb])[..|cbs|] == cbs;
    assert Dispatch(q, cbs + [cb], st) == Dispatch(q, cbs, st) + [Task(q, Branch(cb, st), p + 1)];
  }

  /** `Promise.resolve(q)` of a pending `q` with no callbacks, on an idle
      queue, stays pending until `q` settles; after `q` settles and one
      turn of the queue it carries `q`'s outcome. */
  lemma PromiseResolveAdoptsPending(w: World, q: PromiseId, st: PromiseState, v: Value)
    requires WellFormed(w) && q < |w.promises| && w.queue == []
    requires w.promises[q] == FreshRecord && st != Pending && RefOk(|w.promises|, v)
    ensures var (w1, p) := PromiseResolve(w, Ref(q));
      var w2 := Settle(w1, q, st, v);
      && p < |w1.promises| && w1.promises[p].state == Pending && w1.queue == []
      && WellFormed(w2)
      && p < |Step(w2).promises|
      && Step(w2).promises[p].state == st
      && Step(w2).promises[p].result == v
  {
    var (w1, p) := PromiseResolve(w, Ref(q));
    AdoptRegisters(w, q);
    PromiseResolveWellFormed(w, Ref(q));
    SettleWellFormed(w1, q, st, v);
    AdoptSettles(w1, q, p, p + 1, st, v);
    AdoptRuns(Settle(w1, q, st, v), q, p, p + 1, st, v);
  }
}
