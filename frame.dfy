/** Frame lemmas for the invariant: what a step must leave alone for a
    combinator call's invariant, and the placement rules, to carry over. */
module Frame {
  import opened Types
  import opened Aggregates
  import opened Invariant
  import opened Counting

  /** A settled promise keeps its state and result (write-once). */
  predicate KeepsSettled(w: World, w': World) {
    && |w.promises| <= |w'.promises|
    && forall q :: 0 <= q < |w.promises| && w.promises[q].state != Pending ==>
         w'.promises[q].state == w.promises[q].state && w'.promises[q].result == w.promises[q].result
  }

  /** The closures of call `c` can run as often as before. */
  predicate SameLive(w: World, w': World, c: CombinatorId)
    requires c < |w.combinators|
  {
    forall j :: 0 <= j < |w.combinators[c].inputs| ==> Live(w', c, j) == Live(w, c, j)
  }

  predicate UniqueFor(w: World, c: CombinatorId)
    requires c < |w.combinators|
  {
    forall j :: 0 <= j < |w.combinators[c].inputs| ==> Unique(w, c, j)
  }

  /** The frame conditions of `CarryOver`. */
  predicate Framed(w: World, w': World, c: CombinatorId)
    requires c < |w.combinators|
  {
    && c < |w'.combinators| && w'.combinators[c] == w.combinators[c]
    && KeepsSettled(w, w') && SameLive(w, w', c)
    && var t := w.combinators[c].target;
       t < |w.promises|
       && w'.promises[t].state == w.promises[t].state && w'.promises[t].result == w.promises[t].result
  }

  /** The inputs whose closures have all run keep their outcome, and every
      pair still waits at most once, and once while its input is pending. */
  lemma FramedInputs(w: World, w': World, c: CombinatorId)
    requires c < |w.combinators| && UniqueFor(w, c) && Framed(w, w', c)
    requires CombinatorOk(|w.promises|, w.combinators[c])
    ensures UniqueFor(w', c)
    ensures forall j :: 0 <= j < |w.combinators[c].inputs| && Live(w, c, j) == 0 ==>
              var x := w.combinators[c].inputs[j];
              w'.promises[x].state == w.promises[x].state && w'.promises[x].result == w.promises[x].result
  {
    var cb := w.combinators[c];
    forall j | 0 <= j < |cb.inputs|
      ensures Unique(w', c, j)
      ensures Live(w, c, j) == 0 ==>
                w'.promises[cb.inputs[j]].state == w.promises[cb.inputs[j]].state
                && w'.promises[cb.inputs[j]].result == w.promises[cb.inputs[j]].result
    {
      assert Unique(w, c, j);
    }
  }

  lemma CarryAll(w: World, w': World, c: CombinatorId)
    requires c < |w.combinators| && UniqueFor(w, c) && Framed(w, w', c)
    requires CombinatorOk(|w.promises|, w.combinators[c]) && w.combinators[c].kind == AllKind
    requires AllInv(w, w.combinators[c], c)
    ensures CombinatorOk(|w'.promises|, w.combinators[c]) && AllInv(w', w.combinators[c], c)
  {
    var cb := w.combinators[c];
    var n := |cb.inputs|;
    FramedInputs(w, w', c);
    var t := w.promises[cb.target];
    if t.state == Rejected {
      var j :| 0 <= j < n && w.promises[cb.inputs[j]].state == Rejected && w.promises[cb.inputs[j]].result == t.result;
      assert w'.promises[cb.inputs[j]].state == Rejected;
    }
  }

  lemma CarryAllSettled(w: World, w': World, c: CombinatorId)
    requires c < |w.combinators| && UniqueFor(w, c) && Framed(w, w', c)
    requires CombinatorOk(|w.promises|, w.combinators[c]) && w.combinators[c].kind == AllSettledKind
    requires AllSettledInv(w, w.combinators[c], c)
    ensures CombinatorOk(|w'.promises|, w.combinators[c]) && AllSettledInv(w', w.combinators[c], c)
  {
    FramedInputs(w, w', c);
  }

  lemma CarryAny(w: World, w': World, c: CombinatorId)
    requires c < |w.combinators| && UniqueFor(w, c) && Framed(w, w', c)
    requires CombinatorOk(|w.promises|, w.combinators[c]) && w.combinators[c].kind == AnyKind
    requires AnyInv(w, w.combinators[c], c)
    ensures CombinatorOk(|w'.promises|, w.combinators[c]) && AnyInv(w', w.combinators[c], c)
  {
    var cb := w.combinators[c];
    var n := |cb.inputs|;
    FramedInputs(w, w', c);
    var t := w.promises[cb.target];
    forall j | 0 <= j < n
      ensures Fired(w, c, cb.inputs, j) <==> Fired(w', c, cb.inputs, j)
    {
      assert Unique(w, c, j);
    }
    CountFiredFrame(w, w', c, cb.inputs, n);
    if t.state == Fulfilled {
      var j :| 0 <= j < n && w.promises[cb.inputs[j]].state == Fulfilled && w.promises[cb.inputs[j]].result == t.result;
      assert w'.promises[cb.inputs[j]].state == Fulfilled;
    }
  }

  /** A call whose record, whose promise's outcome and whose closure counts
      are unchanged keeps its invariant when settled promises stay
      settled. */
  lemma CarryOver(w: World, w': World, c: CombinatorId)
    requires CombInv(w, c) && UniqueFor(w, c)
    requires c < |w'.combinators| && w'.combinators[c] == w.combinators[c]
    requires KeepsSettled(w, w') && SameLive(w, w', c)
    requires var t := w.combinators[c].target;
      w'.promises[t].state == w.promises[t].state && w'.promises[t].result == w.promises[t].result
    ensures CombInv(w', c) && UniqueFor(w', c)
  {
    assert Framed(w, w', c);
    FramedInputs(w, w', c);
    match w.combinators[c].kind {
      case AllKind => CarryAll(w, w', c);
      case AllSettledKind => CarryAllSettled(w, w', c);
      case AnyKind => CarryAny(w, w', c);
    }
  }

  // ---------------------------------------------------------------------
  // Placement rules

  /** The same calls, with the same inputs and the same combined promises
      (`count` and the result arrays may differ). */
  predicate SameCalls(w: World, w': World) {
    && |w'.combinators| == |w.combinators|
    && forall c :: 0 <= c < |w.combinators| ==>
         w'.combinators[c].inputs == w.combinators[c].inputs && w'.combinators[c].target == w.combinators[c].target
  }

  lemma NotTargetFrame(w: World, w': World, p: PromiseId)
    requires SameCalls(w, w') && NotTarget(w, p)
    ensures NotTarget(w', p)
  {
    forall c | 0 <= c < |w'.combinators|
      ensures w'.combinators[c].target != p
    {
      assert w.combinators[c].target != p;
    }
  }

  lemma CallbackSafeFrame(w: World, w': World, q: PromiseId, cb: Callback)
    requires SameCalls(w, w') && CallbackSafe(w, q, cb)
    ensures CallbackSafe(w', q, cb)
  {
    NotTargetFrame(w, w', cb.derived);
    if cb.onFulfilled.ResolveOf? || cb.onFulfilled.RejectOf? {
      NotTargetFrame(w, w', cb.onFulfilled.p);
    }
    if cb.onRejected.ResolveOf? || cb.onRejected.RejectOf? {
      NotTargetFrame(w, w', cb.onRejected.p);
    }
  }

  /** A task stays well placed if its closure's input keeps its state. */
  lemma TaskSafeFrame(w: World, w': World, t: Task)
    requires SameCalls(w, w') && TaskSafe(w, t) && |w.promises| <= |w'.promises|
    requires IsClosure(t.handler) ==> w'.promises[t.source].state == w.promises[t.source].state
    ensures TaskSafe(w', t)
  {
    NotTargetFrame(w, w', t.derived);
    if t.handler.ResolveOf? || t.handler.RejectOf? {
      NotTargetFrame(w, w', t.handler.p);
    }
  }

  lemma DistinctTargetsFrame(w: World, w': World)
    requires SameCalls(w, w') && DistinctTargets(w)
    ensures DistinctTargets(w')
  {
    forall c1, c2 | 0 <= c1 < c2 < |w'.combinators|
      ensures w'.combinators[c1].target != w'.combinators[c2].target
    {
      assert w.combinators[c1].target != w.combinators[c2].target;
    }
  }

  /** Every existing promise keeps its callbacks, the queue keeps its
      tasks' placements and the calls are the same. */
  lemma ShapesFrame(w: World, w': World)
    requires Shapes(w) && SameCalls(w, w') && |w.promises| <= |w'.promises|
    requires forall q :: 0 <= q < |w.promises| ==> w'.promises[q].callbacks == w.promises[q].callbacks
    requires forall q :: |w.promises| <= q < |w'.promises| ==> w'.promises[q].callbacks == []
    requires forall q :: 0 <= q < |w.promises| && w.promises[q].state != Pending ==> w'.promises[q].state == w.promises[q].state
    requires w'.queue == w.queue
    ensures Shapes(w')
  {
    forall q, k | 0 <= q < |w'.promises| && 0 <= k < |w'.promises[q].callbacks|
      ensures CallbackSafe(w', q, w'.promises[q].callbacks[k])
    {
      CallbackSafeFrame(w, w', q, w.promises[q].callbacks[k]);
    }
    forall k | 0 <= k < |w'.queue|
      ensures TaskSafe(w', w'.queue[k])
    {
      assert TaskSafe(w, w.queue[k]);
      TaskSafeFrame(w, w', w.queue[k]);
    }
    DistinctTargetsFrame(w, w');
  }
}
