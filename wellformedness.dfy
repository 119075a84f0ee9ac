/** Every operation keeps the world well formed: no promise, handler, task
    or combinator ever refers to an object that does not exist. */
module Wellformedness {
  import opened Types
  import opened Core
  import opened Aggregates
  import opened Chaining
  import opened Statics
  import opened Combinators
  import opened CoreProofs

  /** `w'` has at least the objects of `w`, with the same input arrays. */
  predicate Grows(w: World, w': World) {
    && |w.promises| <= |w'.promises|
    && |w.combinators| <= |w'.combinators|
    && forall c :: 0 <= c < |w.combinators| ==> w'.combinators[c].inputs == w.combinators[c].inputs
  }

  lemma HandlerOkGrows(w: World, w': World, h: Handler)
    requires Grows(w, w') && HandlerOk(w, h)
    ensures HandlerOk(w', h)
  {
  }

  lemma RecordOkGrows(w: World, w': World, rec: PromiseRecord)
    requires Grows(w, w') && RecordOk(w, rec)
    ensures RecordOk(w', rec)
  {
    forall k | 0 <= k < |rec.callbacks|
      ensures CallbackOk(w', rec.callbacks[k])
    {
      HandlerOkGrows(w, w', rec.callbacks[k].onFulfilled);
      HandlerOkGrows(w, w', rec.callbacks[k].onRejected);
    }
  }

  lemma TaskOkGrows(w: World, w': World, t: Task)
    requires Grows(w, w') && TaskOk(w, t)
    ensures TaskOk(w', t)
  {
    HandlerOkGrows(w, w', t.handler);
  }

  /** The objects of `w` are still well formed in the larger world `w'`. */
  lemma OldPartOk(w: World, w': World)
    requires WellFormed(w) && Grows(w, w')
    ensures forall p :: 0 <= p < |w.promises| ==> RecordOk(w', w.promises[p])
    ensures forall k :: 0 <= k < |w.queue| ==> TaskOk(w', w.queue[k])
    ensures forall c :: 0 <= c < |w.combinators| ==> CombinatorOk(|w'.promises|, w.combinators[c])
  {
    forall p | 0 <= p < |w.promises| ensures RecordOk(w', w.promises[p]) {
      RecordOkGrows(w, w', w.promises[p]);
    }
    forall k | 0 <= k < |w.queue| ensures TaskOk(w', w.queue[k]) {
      TaskOkGrows(w, w', w.queue[k]);
    }
  }

  lemma AllocateWellFormed(w: World)
    requires WellFormed(w)
    ensures WellFormed(Allocate(w).0)
  {
    OldPartOk(w, Allocate(w).0);
  }

  lemma SettleWellFormed(w: World, p: PromiseId, st: PromiseState, v: Value)
    requires WellFormed(w) && p < |w.promises| && st != Pending && RefOk(|w.promises|, v)
    ensures WellFormed(Settle(w, p, st, v))
  {
    var w' := Settle(w, p, st, v);
    if w.promises[p].state == Pending {
      var cbs := w.promises[p].callbacks;
      OldPartOk(w, w');
      SettleDispatch(w, p, st, v);
      forall k | 0 <= k < |w'.queue| ensures TaskOk(w', w'.queue[k]) {
        if k >= |w.queue| {
          assert w'.queue[k] == Task(p, Branch(cbs[k - |w.queue|], st), cbs[k - |w.queue|].derived);
          assert CallbackOk(w, cbs[k - |w.queue|]);
        }
      }
    }
  }

  lemma PerformWellFormed(w: World, p: PromiseId, call: Call)
    requires WellFormed(w) && p < |w.promises| && RefOk(|w.promises|, call.v)
    ensures WellFormed(Perform(w, p, call))
  {
    SettleWellFormed(w, p, StateOf(call), call.v);
  }

  predicate CallsOk(n: nat, calls: seq<Call>) {
    forall k :: 0 <= k < |calls| ==> RefOk(n, calls[k].v)
  }

  lemma {:induction false} RunCallsWellFormed(w: World, p: PromiseId, calls: seq<Call>)
    requires WellFormed(w) && p < |w.promises| && CallsOk(|w.promises|, calls)
    ensures WellFormed(RunCalls(w, p, calls))
  {
    if calls != [] {
      var init := calls[..|calls| - 1];
      assert CallsOk(|w.promises|, init);
      RunCallsWellFormed(w, p, init);
      PerformWellFormed(RunCalls(w, p, init), p, calls[|calls| - 1]);
    }
  }

  /** The values an executor passes only name promises that exist before
      it runs. */
  predicate ExecutorOk(n: nat, ex: Executor) {
    CallsOk(n, ex.calls) && (ex.throws.Some? ==> RefOk(n, ex.throws.value))
  }

  lemma ConstructWellFormed(w: World, ex: Executor)
    requires WellFormed(w) && ExecutorOk(|w.promises|, ex)
    ensures WellFormed(Construct(w, ex).0)
  {
    var (w1, p) := Allocate(w);
    AllocateWellFormed(w);
    RunCallsWellFormed(w1, p, ex.calls);
    if ex.throws.Some? {
      SettleWellFormed(RunCalls(w1, p, ex.calls), p, Rejected, ex.throws.value);
    }
  }

  predicate OptionalHandlerOk(w: World, h: Option<Handler>) {
    h.Some? ==> HandlerOk(w, h.value)
  }

  lemma ThenWellFormed(w: World, p: PromiseId, onFulfilled: Option<Handler>, onRejected: Option<Handler>)
    requires WellFormed(w) && p < |w.promises|
    requires OptionalHandlerOk(w, onFulfilled) && OptionalHandlerOk(w, onRejected)
    ensures WellFormed(Then(w, p, onFulfilled, onRejected).0)
  {
    var (w1, d) := Allocate(w);
    var w' := Then(w, p, onFulfilled, onRejected).0;
    OldPartOk(w, w');
    HandlerOkGrows(w, w', DefaultFulfilled(onFulfilled));
    HandlerOkGrows(w, w', DefaultRejected(onRejected));
    if w.promises[p].state == Pending {
      var cbs := w'.promises[p].callbacks;
      forall k | 0 <= k < |cbs| ensures CallbackOk(w', cbs[k]) {
        if k < |w.promises[p].callbacks| {
          assert cbs[k] == w.promises[p].callbacks[k];
        }
      }
    }
  }

  lemma StoreWellFormed(w: World, c: CombinatorId, cb: Combinator)
    requires WellFormed(w) && c < |w.combinators|
    requires cb.inputs == w.combinators[c].inputs && CombinatorOk(|w.promises|, cb)
    ensures WellFormed(Store(w, c, cb))
  {
    OldPartOk(w, Store(w, c, cb));
  }

  lemma OnValueWellFormed(w: World, c: CombinatorId, index: nat, value: Value)
    requires WellFormed(w) && ClosureOk(w, c, index) && RefOk(|w.promises|, value)
    ensures WellFormed(OnValueEffect(w, c, index, value))
  {
    var cb := w.combinators[c];
    match cb.kind
    case AllKind =>
      StoreValueWellFormed(w, c, index, value, Some(value));
    case AllSettledKind =>
      StoreValueWellFormed(w, c, index, value, Some(StatusRecord("fulfilled", value)));
    case AnyKind =>
      SettleWellFormed(w, cb.target, Fulfilled, value);
  }

  /** Storing `slot` at `index`, counting, and resolving at the input
      length, as `all` and `allSettled` do with a value. */
  lemma StoreValueWellFormed(w: World, c: CombinatorId, index: nat, value: Value, slot: Option<Value>)
    requires WellFormed(w) && ClosureOk(w, c, index) && RefOk(|w.promises|, value)
    requires w.combinators[c].kind != AnyKind
    requires slot == if w.combinators[c].kind == AllKind then Some(value) else Some(StatusRecord("fulfilled", value))
    ensures WellFormed(OnValueEffect(w, c, index, value))
  {
    var cb := w.combinators[c];
    var cb' := cb.(count := cb.count + 1, slots := cb.slots[index := slot]);
    StoreWellFormed(w, c, cb');
    if cb'.count == |cb.inputs| {
      SettleWellFormed(Store(w, c, cb'), cb.target, Fulfilled, List(Dense(cb'.slots)));
    }
  }

  lemma OnReasonWellFormed(w: World, c: CombinatorId, index: nat, reason: Value)
    requires WellFormed(w) && ClosureOk(w, c, index) && RefOk(|w.promises|, reason)
    ensures WellFormed(OnReasonEffect(w, c, index, reason))
  {
    var cb := w.combinators[c];
    match cb.kind
    case AllKind =>
      SettleWellFormed(w, cb.target, Rejected, reason);
    case AllSettledKind =>
      RecordReasonWellFormed(w, c, index, reason);
    case AnyKind =>
      CountReasonWellFormed(w, c, index);
  }

  lemma RecordReasonWellFormed(w: World, c: CombinatorId, index: nat, reason: Value)
    requires WellFormed(w) && ClosureOk(w, c, index) && RefOk(|w.promises|, reason)
    requires w.combinators[c].kind == AllSettledKind
    ensures WellFormed(OnReasonEffect(w, c, index, reason))
  {
    var cb := w.combinators[c];
    var cb' := cb.(slots := cb.slots[index := Some(StatusRecord("rejected", reason))], count := cb.count + 1);
    StoreWellFormed(w, c, cb');
    if cb'.count == |cb.inputs| {
      SettleWellFormed(Store(w, c, cb'), cb.target, Fulfilled, List(Dense(cb'.slots)));
    }
  }

  lemma CountReasonWellFormed(w: World, c: CombinatorId, index: nat)
    requires WellFormed(w) && ClosureOk(w, c, index) && w.combinators[c].kind == AnyKind
    ensures forall reason :: WellFormed(OnReasonEffect(w, c, index, reason))
  {
    var cb := w.combinators[c];
    var cb' := cb.(count := cb.count + 1);
    StoreWellFormed(w, c, cb');
    if cb'.count == |cb.inputs| {
      SettleWellFormed(Store(w, c, cb'), cb.target, Rejected, NoneFulfilled);
    }
  }

  lemma InvokeWellFormed(w: World, h: Handler, arg: Value)
    requires WellFormed(w) && Callable(w, h) && RefOk(|w.promises|, arg)
    ensures WellFormed(Invoke(w, h, arg).0)
  {
    match h
    case ResolveOf(p) => SettleWellFormed(w, p, Fulfilled, arg);
    case RejectOf(p) => SettleWellFormed(w, p, Rejected, arg);
    case OnValue(c, i) => OnValueWellFormed(w, c, i, arg);
    case OnReason(c, i) => OnReasonWellFormed(w, c, i, arg);
    case _ =>
  }

  lemma ExecuteCallbackWellFormed(w: World, source: PromiseId, h: Handler, d: PromiseId)
    requires WellFormed(w) && source < |w.promises| && d < |w.promises| && Callable(w, h)
    ensures RefOk(|w.promises|, w.promises[source].result)
    ensures WellFormed(ExecuteCallback(w, source, h, d))
  {
    assert RecordOk(w, w.promises[source]);
    var arg := w.promises[source].result;
    var (w2, out) := Invoke(w, h, arg);
    InvokeWellFormed(w, h, arg);
    match out
    case Thrown(e) =>
      SettleWellFormed(w2, d, Rejected, e);
    case Normal(v) =>
      if v.Ref? {
        ThenWellFormed(w2, v.id, Some(ResolveOf(d)), Some(RejectOf(d)));
      } else {
        SettleWellFormed(w2, d, Fulfilled, v);
      }
  }

  lemma StepWellFormed(w: World)
    requires WellFormed(w)
    ensures WellFormed(Step(w))
  {
    if w.queue != [] {
      var t := w.queue[0];
      var w1 := w.(queue := w.queue[1..]);
      assert TaskOk(w, t);
      assert forall k :: 0 <= k < |w1.queue| ==> w1.queue[k] == w.queue[k + 1];
      ExecuteCallbackWellFormed(w1, t.source, t.handler, t.derived);
    }
  }

  lemma PromiseResolveWellFormed(w: World, value: Value)
    requires WellFormed(w) && RefOk(|w.promises|, value)
    ensures WellFormed(PromiseResolve(w, value).0)
  {
    var (w1, p) := Allocate(w);
    AllocateWellFormed(w);
    if value.Ref? {
      ThenWellFormed(w1, value.id, Some(ResolveOf(p)), Some(RejectOf(p)));
    } else {
      SettleWellFormed(w1, p, Fulfilled, value);
    }
  }

  lemma PromiseRejectWellFormed(w: World, reason: Value)
    requires WellFormed(w) && RefOk(|w.promises|, reason)
    ensures WellFormed(PromiseReject(w, reason).0)
  {
    AllocateWellFormed(w);
    SettleWellFormed(Allocate(w).0, |w.promises|, Rejected, reason);
  }

  lemma {:induction false} SubscribeWellFormed(w: World, c: CombinatorId, inputs: seq<PromiseId>, k: nat)
    requires WellFormed(w) && k <= |inputs| && InputsOk(w, inputs)
    requires c < |w.combinators| && w.combinators[c].inputs == inputs
    ensures WellFormed(Subscribe(w, c, inputs, k))
  {
    if k > 0 {
      SubscribeWellFormed(w, c, inputs, k - 1);
      var w1 := Subscribe(w, c, inputs, k - 1);
      ThenWellFormed(w1, inputs[k - 1], Some(OnValue(c, k - 1)), Some(OnReason(c, k - 1)));
    }
  }

  lemma StartWellFormed(w: World, kind: Kind, inputs: seq<PromiseId>)
    requires WellFormed(w) && InputsOk(w, inputs)
    ensures WellFormed(Start(w, kind, inputs).0)
  {
    var c := |w.combinators|;
    var w2 := Recorded(w, kind, inputs);
    OldPartOk(w, w2);
    assert WellFormed(w2);
    SubscribeWellFormed(w2, c, inputs, |inputs|);
  }

  lemma RaceWellFormed(w: World, inputs: seq<PromiseId>)
    requires WellFormed(w)
    ensures WellFormed(Race(w, inputs).0)
  {
    AllocateWellFormed(w);
    if |inputs| > 0 {
      SettleWellFormed(Allocate(w).0, |w.promises|, Rejected, RaceError);
    }
  }
}
