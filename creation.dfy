/** The operations that create promises keep the invariant: `new Promise`,
    `Promise.resolve`, `Promise.reject`, `Promise.race`, and the start of
    `all`, `allSettled` and `any`, whose `forEach` registers one closure
    pair per input. */
module Creation {
  import opened Types
  import opened Core
  import opened Chaining
  import opened Statics
  import opened Combinators
  import opened Wellformedness
  import opened Invariant
  import opened Counting
  import opened Frame
  import opened Preservation
  import ChainingProofs

  // ---------------------------------------------------------------------
  // `new Promise`, `Promise.resolve`, `Promise.reject`, `Promise.race`

  lemma {:induction false} RunCallsInv(w: World, p: PromiseId, calls: seq<Call>)
    requires Inv(w) && p < |w.promises| && NotTarget(w, p) && CallsOk(|w.promises|, calls)
    ensures Inv(RunCalls(w, p, calls))
  {
    if calls != [] {
      var init := calls[..|calls| - 1];
      var last := calls[|calls| - 1];
      assert CallsOk(|w.promises|, init);
      RunCallsInv(w, p, init);
      var w1 := RunCalls(w, p, init);
      assert RefOk(|w1.promises|, last.v);
      match last {
        case CallResolve(v) => SettleInv(w1, p, Fulfilled, v);
        case CallReject(v) => SettleInv(w1, p, Rejected, v);
      }
    }
  }

  lemma ConstructInv(w: World, ex: Executor)
    requires Inv(w) && ExecutorOk(|w.promises|, ex)
    ensures Inv(Construct(w, ex).0)
  {
    var (w1, p) := Allocate(w);
    AllocateInv(w);
    FreshNotTarget(w);
    RunCallsInv(w1, p, ex.calls);
    if ex.throws.Some? {
      SettleInv(RunCalls(w1, p, ex.calls), p, Rejected, ex.throws.value);
    }
  }

  lemma PromiseResolveInv(w: World, value: Value)
    requires Inv(w) && RefOk(|w.promises|, value)
    ensures Inv(PromiseResolve(w, value).0)
  {
    var (w1, p) := Allocate(w);
    AllocateInv(w);
    FreshNotTarget(w);
    if value.Ref? {
      ThenInv(w1, value.id, Some(ResolveOf(p)), Some(RejectOf(p)));
    } else {
      SettleInv(w1, p, Fulfilled, value);
    }
  }

  lemma PromiseRejectInv(w: World, reason: Value)
    requires Inv(w) && RefOk(|w.promises|, reason)
    ensures Inv(PromiseReject(w, reason).0)
  {
    AllocateInv(w);
    FreshNotTarget(w);
    SettleInv(Allocate(w).0, |w.promises|, Rejected, reason);
  }

  lemma RaceInv(w: World, inputs: seq<PromiseId>)
    requires Inv(w)
    ensures Inv(Race(w, inputs).0)
  {
    AllocateInv(w);
    FreshNotTarget(w);
    if |inputs| > 0 {
      SettleInv(Allocate(w).0, |w.promises|, Rejected, RaceError);
    }
  }

  // ---------------------------------------------------------------------
  // A new call has no closures yet

  lemma {:induction false} TaskCountZero(ts: seq<Task>, c: CombinatorId, i: nat)
    requires forall k :: 0 <= k < |ts| ==> !ClosureOf(ts[k].handler, c, i)
    ensures TaskCount(ts, c, i) == 0
  {
    if ts != [] {
      TaskCountZero(ts[1..], c, i);
    }
  }

  lemma {:induction false} CallbackCountZero(cbs: seq<Callback>, c: CombinatorId, i: nat)
    requires forall k :: 0 <= k < |cbs| ==> !ClosureOf(cbs[k].onFulfilled, c, i)
    ensures CallbackCount(cbs, c, i) == 0
  {
    if cbs != [] {
      CallbackCountZero(cbs[1..], c, i);
    }
  }

  lemma {:induction false} PendingCountZero(ps: seq<PromiseRecord>, c: CombinatorId, i: nat)
    requires forall q, k :: 0 <= q < |ps| && 0 <= k < |ps[q].callbacks| ==> !ClosureOf(ps[q].callbacks[k].onFulfilled, c, i)
    ensures PendingCount(ps, c, i) == 0
  {
    if ps != [] {
      CallbackCountZero(ps[0].callbacks, c, i);
      assert forall q :: 0 <= q < |ps[1..]| ==> ps[1..][q] == ps[q + 1];
      PendingCountZero(ps[1..], c, i);
    }
  }

  /** A well-formed world holds no closure of a call it does not have. */
  lemma ZeroLive(w: World, c: CombinatorId, i: nat)
    requires WellFormed(w) && c >= |w.combinators|
    ensures Live(w, c, i) == 0
  {
    forall k | 0 <= k < |w.queue|
      ensures !ClosureOf(w.queue[k].handler, c, i)
    {
      assert TaskOk(w, w.queue[k]);
    }
    TaskCountZero(w.queue, c, i);
    forall q, k | 0 <= q < |w.promises| && 0 <= k < |w.promises[q].callbacks|
      ensures !ClosureOf(w.promises[q].callbacks[k].onFulfilled, c, i)
    {
      assert RecordOk(w, w.promises[q]);
      assert CallbackOk(w, w.promises[q].callbacks[k]);
    }
    PendingCountZero(w.promises, c, i);
  }

  lemma {:induction false} CountFiredZero(w: World, c: CombinatorId, inputs: seq<PromiseId>, k: nat)
    requires forall j :: 0 <= j < k ==> !Fired(w, c, inputs, j)
    ensures CountFired(w, c, inputs, k) == 0
  {
    if k > 0 {
      CountFiredZero(w, c, inputs, k - 1);
    }
  }

  // ---------------------------------------------------------------------
  // The `forEach` of `all`, `allSettled` and `any`

  /** The world while the newest call registers its closures: the first
      `k` pairs wait once each, the others not yet; the call's record is as
      created; earlier calls keep their invariant. */
  predicate Partial(w: World, k: nat) {
    WellFormed(w) && Shapes(w) && |w.combinators| > 0 && NewestPartial(w, k) && EarlierInv(w)
  }

  /** The newest call's record is as created and its first `k` pairs wait
      once each. */
  predicate NewestPartial(w: World, k: nat)
    requires WellFormed(w) && |w.combinators| > 0
  {
    var c := |w.combinators| - 1;
    var cb := w.combinators[c];
    && k <= |cb.inputs| && cb.count == 0 && cb.slots == InitialSlots(cb.kind, |cb.inputs|)
    && cb.target < |w.promises| && w.promises[cb.target].state == Pending
    && (forall j :: 0 <= j < |cb.inputs| ==> Live(w, c, j) == (if j < k then 1 else 0))
  }

  /** Every call before the newest keeps its invariant. */
  predicate EarlierInv(w: World)
    requires WellFormed(w) && |w.combinators| > 0
  {
    forall c' :: 0 <= c' < |w.combinators| - 1 ==> CombInv(w, c') && UniqueFor(w, c')
  }

  lemma ThenClosureShapes(w: World, c: CombinatorId, k: nat)
    requires WellFormed(w) && Shapes(w) && c < |w.combinators| && k < |w.combinators[c].inputs|
    requires w.combinators[c].inputs[k] < |w.promises|
    ensures Shapes(Then(w, w.combinators[c].inputs[k], Some(OnValue(c, k)), Some(OnReason(c, k))).0)
  {
    var x := w.combinators[c].inputs[k];
    var (w', d) := Then(w, x, Some(OnValue(c, k)), Some(OnReason(c, k)));
    ChainingProofs.ThenDefers(w, x, Some(OnValue(c, k)), Some(OnReason(c, k)));
    assert SameCalls(w, w');
    FreshNotTarget(w);
    NotTargetFrame(w, w', d);
    forall q, j | 0 <= q < |w'.promises| && 0 <= j < |w'.promises[q].callbacks|
      ensures CallbackSafe(w', q, w'.promises[q].callbacks[j])
    {
      if q < |w.promises| && j < |w.promises[q].callbacks| {
        assert w'.promises[q].callbacks[j] == w.promises[q].callbacks[j];
        CallbackSafeFrame(w, w', q, w.promises[q].callbacks[j]);
      } else {
        assert q == x && w'.promises[q].callbacks[j] == Callback(OnValue(c, k), OnReason(c, k), d);
      }
    }
    forall j | 0 <= j < |w'.queue|
      ensures TaskSafe(w', w'.queue[j])
    {
      if j < |w.queue| {
        assert w'.queue[j] == w.queue[j];
        assert TaskSafe(w, w.queue[j]);
        TaskSafeFrame(w, w', w.queue[j]);
      }
    }
    DistinctTargetsFrame(w, w');
  }

  lemma PartialStep(w: World, k: nat, x: PromiseId, w': World)
    requires Partial(w, k) && k < |w.combinators[|w.combinators| - 1].inputs|
    requires x == w.combinators[|w.combinators| - 1].inputs[k] && x < |w.promises|
    requires var c := |w.combinators| - 1;
      w' == Then(w, x, Some(OnValue(c, k)), Some(OnReason(c, k))).0
    ensures Partial(w', k + 1)
  {
    var c := |w.combinators| - 1;
    var cb := w.combinators[c];
    assert CombinatorOk(|w.promises|, cb);
    ThenWellFormed(w, x, Some(OnValue(c, k)), Some(OnReason(c, k)));
    ThenClosureShapes(w, c, k);
    ChainingProofs.ThenDefers(w, x, Some(OnValue(c, k)), Some(OnReason(c, k)));
    forall c', j | 0 <= c' < |w.combinators| && 0 <= j < |w.combinators[c'].inputs|
      ensures Live(w', c', j) == Live(w, c', j) + (if c' == c && j == k then 1 else 0)
    {
      ThenPairLive(w, x, c, k, c', j);
    }
    assert KeepsSettled(w, w');
    forall c' | 0 <= c' < c
      ensures CombInv(w', c') && UniqueFor(w', c')
    {
      assert CombInv(w, c') && UniqueFor(w, c');
      assert CombinatorOk(|w.promises|, w.combinators[c']);
      CarryOver(w, w', c');
    }
  }

  /** Registering pair `k - 1` of the newest call extends a partial
      subscription of `k - 1` pairs to one of `k` pairs. */
  lemma SubscribeNext(w: World, inputs: seq<PromiseId>, k: nat)
    requires |w.combinators| > 0 && inputs == w.combinators[|w.combinators| - 1].inputs
    requires 0 < k <= |inputs| && InputsOk(w, inputs)
    requires Partial(Subscribe(w, |w.combinators| - 1, inputs, k - 1), k - 1)
    ensures Partial(Subscribe(w, |w.combinators| - 1, inputs, k), k)
  {
    var c := |w.combinators| - 1;
    var w1 := Subscribe(w, c, inputs, k - 1);
    SubscribeUnfold(w, c, inputs, k);
    PartialStep(w1, k - 1, inputs[k - 1], Subscribe(w, c, inputs, k));
  }

  lemma SubscribeUnfold(w: World, c: CombinatorId, inputs: seq<PromiseId>, k: nat)
    requires 0 < k <= |inputs| && InputsOk(w, inputs)
    ensures var w1 := Subscribe(w, c, inputs, k - 1);
      && w1.combinators == w.combinators && inputs[k - 1] < |w1.promises|
      && Subscribe(w, c, inputs, k) == Then(w1, inputs[k - 1], Some(OnValue(c, k - 1)), Some(OnReason(c, k - 1))).0
  {
  }

  lemma {:induction false} SubscribePartial(w: World, inputs: seq<PromiseId>, k: nat)
    requires Partial(w, 0) && inputs == w.combinators[|w.combinators| - 1].inputs && k <= |inputs|
    requires InputsOk(w, inputs)
    ensures Partial(Subscribe(w, |w.combinators| - 1, inputs, k), k)
  {
    if k > 0 {
      SubscribePartial(w, inputs, k - 1);
      SubscribeNext(w, inputs, k);
    }
  }

  /** Once every pair is registered, the new call's invariant holds: no
      index written, nothing counted, and its promise pending. */
  lemma PartialDone(w: World)
    requires |w.combinators| > 0 && Partial(w, |w.combinators[|w.combinators| - 1].inputs|)
    ensures Inv(w)
  {
    var c := |w.combinators| - 1;
    var cb := w.combinators[c];
    var n := |cb.inputs|;
    forall j | 0 <= j < n
      ensures Unique(w, c, j)
    {
      assert CombinatorOk(|w.promises|, cb);
    }
    assert UniqueFor(w, c);
    match cb.kind {
      case AllKind =>
        CountSomeEmpty(n);
        assert AllInv(w, cb, c);
      case AllSettledKind =>
        CountSomeEmpty(n);
        assert AllSettledInv(w, cb, c);
      case AnyKind =>
        CountFiredZero(w, c, cb.inputs, n);
        assert AnyInv(w, cb, c);
    }
    assert CombInv(w, c);
    forall c' | 0 <= c' < |w.combinators|
      ensures CombInv(w, c')
    {
    }
    forall c', j | 0 <= c' < |w.combinators| && 0 <= j < |w.combinators[c'].inputs|
      ensures Unique(w, c', j)
    {
      assert UniqueFor(w, c');
    }
  }

  /** The new promise is named by nothing in `w`, so the placement rules
      survive the new call. */
  lemma RecordedShapes(w: World, kind: Kind, inputs: seq<PromiseId>)
    requires WellFormed(w) && Shapes(w) && InputsOk(w, inputs)
    ensures WellFormed(Recorded(w, kind, inputs)) && Shapes(Recorded(w, kind, inputs))
  {
    var c := |w.combinators|;
    var w2 := Recorded(w, kind, inputs);
    OldPartOk(w, w2);
    assert WellFormed(w2);
    forall r: PromiseId | r < |w.promises| && NotTarget(w, r)
      ensures NotTarget(w2, r)
    {
      forall c' | 0 <= c' < |w2.combinators|
        ensures w2.combinators[c'].target != r
      {
        if c' < c {
          assert w2.combinators[c'] == w.combinators[c'];
        }
      }
    }
    forall q, k | 0 <= q < |w2.promises| && 0 <= k < |w2.promises[q].callbacks|
      ensures CallbackSafe(w2, q, w2.promises[q].callbacks[k])
    {
      var b := w.promises[q].callbacks[k];
      assert w2.promises[q].callbacks[k] == b;
      assert CallbackSafe(w, q, b);
      assert RecordOk(w, w.promises[q]) && CallbackOk(w, b);
    }
    forall k | 0 <= k < |w2.queue|
      ensures TaskSafe(w2, w2.queue[k])
    {
      assert TaskSafe(w, w.queue[k]) && TaskOk(w, w.queue[k]);
    }
    forall c1, c2 | 0 <= c1 < c2 < |w2.combinators|
      ensures w2.combinators[c1].target != w2.combinators[c2].target
    {
      assert CombinatorOk(|w.promises|, w.combinators[c1]);
      if c2 < c {
        assert DistinctTargets(w);
      }
    }
  }

  /** The earlier calls keep their invariant, and the new one has no
      closure yet. */
  lemma RecordedCalls(w: World, kind: Kind, inputs: seq<PromiseId>)
    requires Inv(w) && InputsOk(w, inputs)
    ensures var w2 := Recorded(w, kind, inputs);
      && (forall c' :: 0 <= c' < |w.combinators| ==> CombInv(w2, c') && UniqueFor(w2, c'))
      && (forall j :: 0 <= j < |inputs| ==> Live(w2, |w.combinators|, j) == 0)
  {
    var c := |w.combinators|;
    var w2 := Recorded(w, kind, inputs);
    forall c', j | 0 <= c' < c && 0 <= j < |w.combinators[c'].inputs|
      ensures Live(w2, c', j) == Live(w, c', j)
    {
      AllocateLive(w, c', j);
    }
    forall c' | 0 <= c' < c
      ensures CombInv(w2, c') && UniqueFor(w2, c')
    {
      assert CombInv(w, c');
      assert UniqueFor(w, c') by {
        forall j | 0 <= j < |w.combinators[c'].inputs| ensures Unique(w, c', j) { }
      }
      assert CombinatorOk(|w.promises|, w.combinators[c']);
      CarryOver(w, w2, c');
    }
    forall j | 0 <= j < |inputs|
      ensures Live(w2, c, j) == 0
    {
      ZeroLive(w, c, j);
      AllocateLive(w, c, j);
    }
  }

  lemma StartPartial(w: World, kind: Kind, inputs: seq<PromiseId>)
    requires Inv(w) && InputsOk(w, inputs)
    ensures Partial(Recorded(w, kind, inputs), 0)
  {
    RecordedShapes(w, kind, inputs);
    RecordedCalls(w, kind, inputs);
  }

  lemma StartInv(w: World, kind: Kind, inputs: seq<PromiseId>)
    requires Inv(w) && InputsOk(w, inputs)
    ensures Inv(Start(w, kind, inputs).0)
  {
    var c := |w.combinators|;
    var w2 := Recorded(w, kind, inputs);
    StartPartial(w, kind, inputs);
    SubscribePartial(w2, inputs, |inputs|);
    PartialDone(Subscribe(w2, c, inputs, |inputs|));
  }
}
