/** Running a combinator closure keeps the invariant.  Each closure runs
    once, against its own input's outcome, so `count` and the result array
    move in step with the closures that have run, and the combined promise
    is settled only when the kind's condition is met. */
module ClosureSteps {
  import opened Types
  import opened Core
  import opened Aggregates
  import opened Chaining
  import opened CoreProofs
  import opened Wellformedness
  import opened Invariant
  import opened Counting
  import opened Frame
  import opened Preservation

  lemma Assemble(w: World)
    requires WellFormed(w) && Shapes(w)
    requires forall c :: 0 <= c < |w.combinators| ==> CombInv(w, c) && UniqueFor(w, c)
    ensures Inv(w)
  {
    forall c, i | 0 <= c < |w.combinators| && 0 <= i < |w.combinators[c].inputs|
      ensures Unique(w, c, i)
    {
      assert UniqueFor(w, c);
    }
  }

  /** Every call other than `c0` carries its invariant over a step that
      leaves its record, its promise and its closure counts alone and keeps
      settled promises settled. */
  lemma OthersCarry(w: World, w': World, c0: CombinatorId)
    requires Inv(w) && |w'.combinators| == |w.combinators| && KeepsSettled(w, w')
    requires forall c :: 0 <= c < |w.combinators| && c != c0 ==> w'.combinators[c] == w.combinators[c]
    requires forall c, j :: 0 <= c < |w.combinators| && c != c0 && 0 <= j < |w.combinators[c].inputs| ==>
               Live(w', c, j) == Live(w, c, j)
    requires forall c :: 0 <= c < |w.combinators| && c != c0 ==>
               var t := w.combinators[c].target;
               t < |w.promises| && w'.promises[t].state == w.promises[t].state && w'.promises[t].result == w.promises[t].result
    ensures forall c :: 0 <= c < |w.combinators| && c != c0 ==> CombInv(w', c) && UniqueFor(w', c)
  {
    forall c | 0 <= c < |w.combinators| && c != c0
      ensures CombInv(w', c) && UniqueFor(w', c)
    {
      assert CombInv(w, c);
      assert UniqueFor(w, c);
      CarryOver(w, w', c);
    }
  }

  /** What taking a closure task off the queue means: the closure is the
      one place its pair was waiting, it runs against its own input, and no
      other closure count moves. */
  lemma PopClosure(w: World)
    requires Inv(w) && w.queue != [] && IsClosure(w.queue[0].handler)
    ensures var t := w.queue[0];
      var c := t.handler.c;
      var i := t.handler.index;
      var w1 := w.(queue := w.queue[1..]);
      && c < |w.combinators| && i < |w.combinators[c].inputs|
      && w.combinators[c].inputs[i] == t.source && t.source < |w.promises|
      && w.promises[t.source].state == (if t.handler.OnValue? then Fulfilled else Rejected)
      && Live(w, c, i) == 1 && Live(w1, c, i) == 0
      && (forall c', j :: 0 <= c' < |w.combinators| && 0 <= j < |w.combinators[c'].inputs| && (c' != c || j != i) ==>
            Live(w1, c', j) == Live(w, c', j))
      && WellFormed(w1) && Shapes(w1)
      && t.derived < |w.promises| && NotTarget(w, t.derived)
      && RefOk(|w.promises|, w.promises[t.source].result)
  {
    var t := w.queue[0];
    var c := t.handler.c;
    var i := t.handler.index;
    var w1 := w.(queue := w.queue[1..]);
    assert TaskSafe(w, t) && TaskOk(w, t);
    assert RecordOk(w, w.promises[t.source]);
    PopLive(w, c, i);
    assert Unique(w, c, i);
    forall c', j | 0 <= c' < |w.combinators| && 0 <= j < |w.combinators[c'].inputs| && (c' != c || j != i)
      ensures Live(w1, c', j) == Live(w, c', j)
    {
      PopLive(w, c', j);
    }
    PopShapes(w);
  }

  /** `count` and the array of call `c` are unchanged, everything else
      follows a popped closure task of pair `(c, i)`. */
  lemma PoppedUnique(w: World, w2: World, c: CombinatorId, i: nat)
    requires Inv(w) && c < |w.combinators| && i < |w.combinators[c].inputs|
    requires |w2.combinators| == |w.combinators| && w2.combinators[c].inputs == w.combinators[c].inputs
    requires w2.promises == w.promises
    requires w.promises[w.combinators[c].inputs[i]].state != Pending && Live(w2, c, i) == 0
    requires forall j :: 0 <= j < |w.combinators[c].inputs| && j != i ==> Live(w2, c, j) == Live(w, c, j)
    ensures UniqueFor(w2, c)
  {
    forall j | 0 <= j < |w.combinators[c].inputs|
      ensures Unique(w2, c, j)
    {
      assert Unique(w, c, j);
    }
  }

  /** The closure counts after a popped closure task of pair `(c, i)`
      whose closure writes a new record of call `c`. */
  lemma StoreLive(w: World, cb': Combinator)
    requires Inv(w) && w.queue != [] && IsClosure(w.queue[0].handler)
    requires w.queue[0].handler.c < |w.combinators|
    ensures var t := w.queue[0];
      var c := t.handler.c;
      var i := t.handler.index;
      var w2 := Store(w.(queue := w.queue[1..]), c, cb');
      && i < |w.combinators[c].inputs| && w.combinators[c].inputs[i] == t.source && t.source < |w.promises|
      && w.promises[t.source].state == (if t.handler.OnValue? then Fulfilled else Rejected)
      && w2.promises == w.promises
      && Live(w, c, i) == 1 && Live(w2, c, i) == 0
      && (forall j :: 0 <= j < |w.combinators[c].inputs| && j != i ==> Live(w2, c, j) == Live(w, c, j))
  {
    PopClosure(w);
  }

  /** A popped closure task of pair `(c, i)` whose closure writes a new
      record of call `c`, with the same inputs and promise, that satisfies
      the call's invariant. */
  lemma StoreInv(w: World, cb': Combinator)
    requires Inv(w) && w.queue != [] && IsClosure(w.queue[0].handler)
    requires w.queue[0].handler.c < |w.combinators|
    requires var cb := w.combinators[w.queue[0].handler.c];
      cb'.inputs == cb.inputs && cb'.target == cb.target && cb'.kind == cb.kind
    requires CombinatorOk(|w.promises|, cb')
    requires CombInv(Store(w.(queue := w.queue[1..]), w.queue[0].handler.c, cb'), w.queue[0].handler.c)
    ensures Inv(Store(w.(queue := w.queue[1..]), w.queue[0].handler.c, cb'))
  {
    var t := w.queue[0];
    var c := t.handler.c;
    var i := t.handler.index;
    var w1 := w.(queue := w.queue[1..]);
    var w2 := Store(w1, c, cb');
    PopClosure(w);
    StoreWellFormed(w1, c, cb');
    ShapesFrame(w1, w2);
    OthersCarry(w, w2, c);
    PoppedUnique(w, w2, c, i);
    Assemble(w2);
  }

  // ---------------------------------------------------------------------
  // Settling a combined promise

  /** The condition under which a closure of call `c` settles its promise
      with `st` and `v`. */
  predicate Justified(w: World, c: CombinatorId, st: PromiseState, v: Value)
    requires c < |w.combinators| && CombinatorOk(|w.promises|, w.combinators[c])
  {
    var cb := w.combinators[c];
    var n := |cb.inputs|;
    match cb.kind
    case AllKind =>
      && (st == Fulfilled ==> n > 0 && cb.count == n && v == List(Dense(cb.slots)))
      && (st == Rejected ==>
            exists j :: 0 <= j < n && w.promises[cb.inputs[j]].state == Rejected && w.promises[cb.inputs[j]].result == v)
    case AllSettledKind =>
      st == Fulfilled && n > 0 && cb.count == n && v == List(Dense(cb.slots))
    case AnyKind =>
      && (st == Fulfilled ==>
            exists j :: 0 <= j < n && w.promises[cb.inputs[j]].state == Fulfilled && w.promises[cb.inputs[j]].result == v)
      && (st == Rejected ==> n > 0 && cb.count == n && v == NoneFulfilled)
  }

  /** Everything but call `c`'s own invariant survives settling its
      promise. */
  lemma SettleTargetFrame(w: World, c: CombinatorId, st: PromiseState, v: Value)
    requires Inv(w) && c < |w.combinators| && st != Pending && RefOk(|w.promises|, v)
    requires w.promises[w.combinators[c].target].state == Pending
    ensures var w' := Settle(w, w.combinators[c].target, st, v);
      var cb := w.combinators[c];
      && WellFormed(w') && Shapes(w') && KeepsSettled(w, w') && w'.combinators == w.combinators
      && (forall c' :: 0 <= c' < |w.combinators| && c' != c ==> CombInv(w', c') && UniqueFor(w', c'))
      && UniqueFor(w', c)
      && w'.promises[cb.target].state == st && w'.promises[cb.target].result == v
      && (forall j :: 0 <= j < |cb.inputs| ==> Live(w', c, j) == Live(w, c, j))
      && (forall j :: 0 <= j < |cb.inputs| && Live(w, c, j) == 0 ==>
            w'.promises[cb.inputs[j]].state == w.promises[cb.inputs[j]].state
            && w'.promises[cb.inputs[j]].result == w.promises[cb.inputs[j]].result)
  {
    var cb := w.combinators[c];
    var p := cb.target;
    var w' := Settle(w, p, st, v);
    assert CombinatorOk(|w.promises|, cb);
    SettleWellFormed(w, p, st, v);
    SettleShapes(w, p, st, v);
    SettleCounts(w, p, st, v);
    SettleDispatch(w, p, st, v);
    forall c' | 0 <= c' < |w.combinators| && c' != c
      ensures w.combinators[c'].target != p
    {
      assert DistinctTargets(w);
      if c' < c {
        assert w.combinators[c'].target != w.combinators[c].target;
      } else {
        assert w.combinators[c].target != w.combinators[c'].target;
      }
    }
    forall c' | 0 <= c' < |w.combinators| && c' != c
      ensures var t := w.combinators[c'].target;
        t < |w.promises| && w'.promises[t].state == w.promises[t].state && w'.promises[t].result == w.promises[t].result
    {
      assert CombinatorOk(|w.promises|, w.combinators[c']);
    }
    OthersCarry(w, w', c);
    forall j | 0 <= j < |cb.inputs|
      ensures Unique(w', c, j)
      ensures Live(w, c, j) == 0 ==>
                w'.promises[cb.inputs[j]].state == w.promises[cb.inputs[j]].state
                && w'.promises[cb.inputs[j]].result == w.promises[cb.inputs[j]].result
    {
      assert Unique(w, c, j);
    }
  }

  lemma SettleAllTarget(w: World, c: CombinatorId, st: PromiseState, v: Value)
    requires Inv(w) && c < |w.combinators| && st != Pending && RefOk(|w.promises|, v)
    requires w.combinators[c].kind == AllKind && w.promises[w.combinators[c].target].state == Pending
    requires CombinatorOk(|w.promises|, w.combinators[c]) && Justified(w, c, st, v)
    ensures Inv(Settle(w, w.combinators[c].target, st, v))
  {
    var cb := w.combinators[c];
    var w' := Settle(w, cb.target, st, v);
    SettleTargetFrame(w, c, st, v);
    assert CombInv(w, c);
    AllTargetInv(w, w', c, st, v);
    Assemble(w');
  }

  /** `all`'s invariant once its promise is settled under `Justified`,
      the closure counts and the inputs whose closures ran being kept. */
  lemma AllTargetInv(w: World, w': World, c: CombinatorId, st: PromiseState, v: Value)
    requires c < |w.combinators| && CombinatorOk(|w.promises|, w.combinators[c])
    requires w.combinators[c].kind == AllKind && AllInv(w, w.combinators[c], c)
    requires CombinatorOk(|w'.promises|, w.combinators[c]) && st != Pending && Justified(w, c, st, v)
    requires KeepsSettled(w, w')
    requires var t := w.combinators[c].target;
      w'.promises[t].state == st && w'.promises[t].result == v
    requires forall j :: 0 <= j < |w.combinators[c].inputs| ==> Live(w', c, j) == Live(w, c, j)
    requires forall j :: 0 <= j < |w.combinators[c].inputs| && Live(w, c, j) == 0 ==>
      var x := w.combinators[c].inputs[j];
      w'.promises[x].state == w.promises[x].state && w'.promises[x].result == w.promises[x].result
    ensures AllInv(w', w.combinators[c], c)
  {
    var cb := w.combinators[c];
    var n := |cb.inputs|;
    if st == Fulfilled {
      CountSomeBound(cb.slots);
    } else {
      var j :| 0 <= j < n && w.promises[cb.inputs[j]].state == Rejected && w.promises[cb.inputs[j]].result == v;
      assert w'.promises[cb.inputs[j]].state == Rejected;
    }
  }

  lemma SettleAllSettledTarget(w: World, c: CombinatorId, v: Value)
    requires Inv(w) && c < |w.combinators| && RefOk(|w.promises|, v)
    requires w.combinators[c].kind == AllSettledKind && w.promises[w.combinators[c].target].state == Pending
    requires CombinatorOk(|w.promises|, w.combinators[c]) && Justified(w, c, Fulfilled, v)
    ensures Inv(Settle(w, w.combinators[c].target, Fulfilled, v))
  {
    var cb := w.combinators[c];
    var w' := Settle(w, cb.target, Fulfilled, v);
    SettleTargetFrame(w, c, Fulfilled, v);
    assert CombInv(w, c) && AllSettledInv(w, cb, c);
    CountSomeBound(cb.slots);
    assert AllSettledInv(w', cb, c);
    Assemble(w');
  }

  lemma SettleAnyTarget(w: World, c: CombinatorId, st: PromiseState, v: Value)
    requires Inv(w) && c < |w.combinators| && st != Pending && RefOk(|w.promises|, v)
    requires w.combinators[c].kind == AnyKind && w.promises[w.combinators[c].target].state == Pending
    requires CombinatorOk(|w.promises|, w.combinators[c]) && Justified(w, c, st, v)
    ensures Inv(Settle(w, w.combinators[c].target, st, v))
  {
    var cb := w.combinators[c];
    var n := |cb.inputs|;
    var w' := Settle(w, cb.target, st, v);
    SettleTargetFrame(w, c, st, v);
    assert CombInv(w, c) && AnyInv(w, cb, c);
    forall j | 0 <= j < n
      ensures Fired(w, c, cb.inputs, j) <==> Fired(w', c, cb.inputs, j)
    {
      assert Unique(w, c, j);
    }
    CountFiredFrame(w, w', c, cb.inputs, n);
    if st == Fulfilled {
      var j :| 0 <= j < n && w.promises[cb.inputs[j]].state == Fulfilled && w.promises[cb.inputs[j]].result == v;
      assert w'.promises[cb.inputs[j]].state == Fulfilled;
    }
    assert AnyInv(w', cb, c);
    Assemble(w');
  }

  /** Settling call `c`'s promise under the kind's condition keeps the
      invariant; a promise already settled ignores it. */
  lemma SettleTargetInv(w: World, c: CombinatorId, st: PromiseState, v: Value)
    requires Inv(w) && c < |w.combinators| && st != Pending
    requires CombinatorOk(|w.promises|, w.combinators[c]) && RefOk(|w.promises|, v)
    requires Justified(w, c, st, v)
    ensures Inv(Settle(w, w.combinators[c].target, st, v))
  {
    if w.promises[w.combinators[c].target].state == Pending {
      match w.combinators[c].kind {
        case AllKind => SettleAllTarget(w, c, st, v);
        case AllSettledKind => SettleAllSettledTarget(w, c, v);
        case AnyKind => SettleAnyTarget(w, c, st, v);
      }
    }
  }

  // ---------------------------------------------------------------------
  // The six closures

  /** The world right after the closure task of pair `(c, i)` left the
      queue still satisfies the invariant, except for `any`'s rejection
      closure, whose count is behind until the closure body runs. */
  lemma PopClosureInv(w: World)
    requires Inv(w) && w.queue != [] && IsClosure(w.queue[0].handler)
    requires w.queue[0].handler.c < |w.combinators|
    requires !(w.queue[0].handler.OnReason? && w.combinators[w.queue[0].handler.c].kind == AnyKind)
    ensures Inv(w.(queue := w.queue[1..]))
  {
    var t := w.queue[0];
    var c := t.handler.c;
    var i := t.handler.index;
    var w1 := w.(queue := w.queue[1..]);
    PopClosure(w);
    var cb := w.combinators[c];
    var n := |cb.inputs|;
    OthersCarry(w, w1, c);
    PoppedUnique(w, w1, c, i);
    assert CombInv(w, c);
    match cb.kind {
      case AllKind =>
        assert AllInv(w, cb, c);
        assert AllInv(w1, cb, c);
      case AllSettledKind =>
        assert AllSettledInv(w, cb, c);
        assert AllSettledInv(w1, cb, c);
      case AnyKind =>
        assert AnyInv(w, cb, c);
        forall j | 0 <= j < n
          ensures Fired(w, c, cb.inputs, j) <==> Fired(w1, c, cb.inputs, j)
        {
        }
        CountFiredFrame(w, w1, c, cb.inputs, n);
        assert AnyInv(w1, cb, c);
    }
    Assemble(w1);
  }

  /** The value written and counted, before `all` may resolve. */
  lemma AllStore(w: World)
    requires Inv(w) && w.queue != [] && w.queue[0].handler.OnValue?
    requires w.queue[0].handler.c < |w.combinators| && w.combinators[w.queue[0].handler.c].kind == AllKind
    ensures var t := w.queue[0];
      var c := t.handler.c;
      var i := t.handler.index;
      var cb := w.combinators[c];
      && i < |cb.slots| && t.source < |w.promises|
      && Inv(Store(w.(queue := w.queue[1..]), c,
               cb.(count := cb.count + 1, slots := cb.slots[i := Some(w.promises[t.source].result)])))
  {
    var t := w.queue[0];
    var c := t.handler.c;
    var i := t.handler.index;
    var w1 := w.(queue := w.queue[1..]);
    assert TaskOk(w, t) && TaskSafe(w, t);
    var cb := w.combinators[c];
    assert CombinatorOk(|w.promises|, cb) && CombInv(w, c);
    var value := w.promises[t.source].result;
    var cb' := cb.(count := cb.count + 1, slots := cb.slots[i := Some(value)]);
    var w2 := Store(w1, c, cb');
    StoreLive(w, cb');
    AllWrite(w, w2, c, i, value);
    StoreInv(w, cb');
  }

  /** `all`, fulfilment closure: `count++`, `values[index] = value`, and
      `resolve(values)` once the count reaches the input length. */
  lemma AllValueStep(w: World)
    requires Inv(w) && w.queue != [] && w.queue[0].handler.OnValue?
    requires w.queue[0].handler.c < |w.combinators| && w.combinators[w.queue[0].handler.c].kind == AllKind
    ensures var t := w.queue[0];
      var w1 := w.(queue := w.queue[1..]);
      ClosureOk(w1, t.handler.c, t.handler.index)
      && Inv(OnValueEffect(w1, t.handler.c, t.handler.index, w1.promises[t.source].result))
  {
    var t := w.queue[0];
    var c := t.handler.c;
    var i := t.handler.index;
    var w1 := w.(queue := w.queue[1..]);
    AllStore(w);
    assert TaskOk(w, t);
    var cb := w.combinators[c];
    var value := w1.promises[t.source].result;
    var cb' := cb.(count := cb.count + 1, slots := cb.slots[i := Some(value)]);
    var w2 := Store(w1, c, cb');
    assert w2.combinators[c] == cb';
    ResolveWhenFull(w2, c);
    assert OnValueEffect(w1, c, i, value)
        == if cb'.count == |cb.inputs| then Settle(w2, cb.target, Fulfilled, List(Dense(cb'.slots))) else w2;
  }

  /** `all`, rejection closure: `reject(reason)`. */
  lemma AllReasonStep(w: World)
    requires Inv(w) && w.queue != [] && w.queue[0].handler.OnReason?
    requires w.queue[0].handler.c < |w.combinators| && w.combinators[w.queue[0].handler.c].kind == AllKind
    ensures var t := w.queue[0];
      var w1 := w.(queue := w.queue[1..]);
      ClosureOk(w1, t.handler.c, t.handler.index)
      && Inv(OnReasonEffect(w1, t.handler.c, t.handler.index, w1.promises[t.source].result))
  {
    var t := w.queue[0];
    var c := t.handler.c;
    var i := t.handler.index;
    var w1 := w.(queue := w.queue[1..]);
    PopClosure(w);
    PopClosureInv(w);
    SettleTargetInv(w1, c, Rejected, w.promises[t.source].result);
  }

  /** What either `allSettled` closure does with the record `sv`: store it
      at its index, count, and resolve with the array at the input
      length. */
  function Recorded(w: World, c: CombinatorId, i: nat, sv: Value): (r: World)
    requires ClosureOk(w, c, i) && w.combinators[c].kind == AllSettledKind
  {
    var cb := w.combinators[c];
    var cb' := cb.(slots := cb.slots[i := Some(sv)], count := cb.count + 1);
    var w' := Store(w, c, cb');
    if cb'.count == |cb.inputs| then Settle(w', cb.target, Fulfilled, List(Dense(cb'.slots))) else w'
  }

  /** Writing the record of input `i` into an `allSettled` array whose
      closure pair `i` just ran. */
  lemma AllSettledWrite(w: World, w2: World, c: CombinatorId, i: nat, sv: Value)
    requires c < |w.combinators| && CombinatorOk(|w.promises|, w.combinators[c])
    requires w.combinators[c].kind == AllSettledKind && AllSettledInv(w, w.combinators[c], c)
    requires i < |w.combinators[c].inputs| && w2.promises == w.promises
    requires w.promises[w.combinators[c].inputs[i]].state != Pending
    requires sv == Outcome(w.promises[w.combinators[c].inputs[i]])
    requires Live(w, c, i) == 1 && Live(w2, c, i) == 0
    requires forall j :: 0 <= j < |w.combinators[c].inputs| && j != i ==> Live(w2, c, j) == Live(w, c, j)
    ensures w.combinators[c].slots[i].None?
    ensures var cb := w.combinators[c];
      AllSettledInv(w2, cb.(slots := cb.slots[i := Some(sv)], count := cb.count + 1), c)
  {
    var cb := w.combinators[c];
    assert cb.slots[i].None?;
    assert w.promises[cb.target].state == Pending;
    CountSomeWrite(cb.slots, i, sv);
  }

  /** Writing the value of input `i` into an `all` array whose closure
      pair `i` just ran. */
  lemma AllWrite(w: World, w2: World, c: CombinatorId, i: nat, value: Value)
    requires c < |w.combinators| && CombinatorOk(|w.promises|, w.combinators[c])
    requires w.combinators[c].kind == AllKind && AllInv(w, w.combinators[c], c)
    requires i < |w.combinators[c].inputs| && w2.promises == w.promises
    requires w.promises[w.combinators[c].inputs[i]].state == Fulfilled
    requires value == w.promises[w.combinators[c].inputs[i]].result
    requires Live(w, c, i) == 1 && Live(w2, c, i) == 0
    requires forall j :: 0 <= j < |w.combinators[c].inputs| && j != i ==> Live(w2, c, j) == Live(w, c, j)
    ensures w.combinators[c].slots[i].None?
    ensures var cb := w.combinators[c];
      AllInv(w2, cb.(count := cb.count + 1, slots := cb.slots[i := Some(value)]), c)
  {
    var cb := w.combinators[c];
    assert cb.slots[i].None?;
    CountSomeWrite(cb.slots, i, value);
  }

  /** The record written and counted, before the array may be resolved. */
  lemma RecordedStore(w: World)
    requires Inv(w) && w.queue != [] && IsClosure(w.queue[0].handler)
    requires w.queue[0].handler.c < |w.combinators| && w.combinators[w.queue[0].handler.c].kind == AllSettledKind
    ensures var t := w.queue[0];
      var c := t.handler.c;
      var i := t.handler.index;
      var cb := w.combinators[c];
      && i < |cb.slots| && t.source < |w.promises|
      && Inv(Store(w.(queue := w.queue[1..]), c,
               cb.(slots := cb.slots[i := Some(Outcome(w.promises[t.source]))], count := cb.count + 1)))
  {
    var t := w.queue[0];
    var c := t.handler.c;
    var i := t.handler.index;
    var w1 := w.(queue := w.queue[1..]);
    assert TaskOk(w, t) && TaskSafe(w, t);
    var cb := w.combinators[c];
    assert CombinatorOk(|w.promises|, cb) && CombInv(w, c);
    var sv := Outcome(w.promises[t.source]);
    var cb' := cb.(slots := cb.slots[i := Some(sv)], count := cb.count + 1);
    var w2 := Store(w1, c, cb');
    StoreLive(w, cb');
    AllSettledWrite(w, w2, c, i, sv);
    StoreInv(w, cb');
  }

  /** An `all` or `allSettled` call whose count reached its input length
      resolves with its array. */
  lemma ResolveWhenFull(w: World, c: CombinatorId)
    requires Inv(w) && c < |w.combinators| && w.combinators[c].kind != AnyKind
    requires w.combinators[c].count > 0
    ensures var cb := w.combinators[c];
      Inv(if cb.count == |cb.inputs| then Settle(w, cb.target, Fulfilled, List(Dense(cb.slots))) else w)
  {
    var cb := w.combinators[c];
    if cb.count == |cb.inputs| {
      assert CombInv(w, c);
      SettleTargetInv(w, c, Fulfilled, List(Dense(cb.slots)));
    }
  }

  lemma RecordedInv(w: World)
    requires Inv(w) && w.queue != [] && IsClosure(w.queue[0].handler)
    requires w.queue[0].handler.c < |w.combinators| && w.combinators[w.queue[0].handler.c].kind == AllSettledKind
    ensures var t := w.queue[0];
      var w1 := w.(queue := w.queue[1..]);
      ClosureOk(w1, t.handler.c, t.handler.index) && w1.combinators[t.handler.c].kind == AllSettledKind
      && Inv(Recorded(w1, t.handler.c, t.handler.index, Outcome(w1.promises[t.source])))
  {
    var t := w.queue[0];
    var c := t.handler.c;
    var i := t.handler.index;
    var w1 := w.(queue := w.queue[1..]);
    RecordedStore(w);
    var cb := w.combinators[c];
    var sv := Outcome(w1.promises[t.source]);
    var cb' := cb.(slots := cb.slots[i := Some(sv)], count := cb.count + 1);
    var w2 := Store(w1, c, cb');
    assert w2.combinators[c] == cb';
    ResolveWhenFull(w2, c);
    assert Recorded(w1, c, i, sv)
        == if cb'.count == |cb.inputs| then Settle(w2, cb.target, Fulfilled, List(Dense(cb'.slots))) else w2;
  }

  /** `allSettled`, fulfilment closure: records `{status: 'fulfilled', value}`. */
  lemma AllSettledValueStep(w: World)
    requires Inv(w) && w.queue != [] && w.queue[0].handler.OnValue?
    requires w.queue[0].handler.c < |w.combinators| && w.combinators[w.queue[0].handler.c].kind == AllSettledKind
    ensures var t := w.queue[0];
      var w1 := w.(queue := w.queue[1..]);
      ClosureOk(w1, t.handler.c, t.handler.index)
      && Inv(OnValueEffect(w1, t.handler.c, t.handler.index, w1.promises[t.source].result))
  {
    var t := w.queue[0];
    PopClosure(w);
    RecordedInv(w);
    assert StatusRecord("fulfilled", w.promises[t.source].result) == Outcome(w.promises[t.source]);
  }

  /** `allSettled`, rejection closure: records `{status: 'rejected', value: reason}`. */
  lemma AllSettledReasonStep(w: World)
    requires Inv(w) && w.queue != [] && w.queue[0].handler.OnReason?
    requires w.queue[0].handler.c < |w.combinators| && w.combinators[w.queue[0].handler.c].kind == AllSettledKind
    ensures var t := w.queue[0];
      var w1 := w.(queue := w.queue[1..]);
      ClosureOk(w1, t.handler.c, t.handler.index)
      && Inv(OnReasonEffect(w1, t.handler.c, t.handler.index, w1.promises[t.source].result))
  {
    var t := w.queue[0];
    PopClosure(w);
    RecordedInv(w);
    assert StatusRecord("rejected", w.promises[t.source].result) == Outcome(w.promises[t.source]);
  }

  /** `any`, fulfilment closure: `resolve(value)`. */
  lemma AnyValueStep(w: World)
    requires Inv(w) && w.queue != [] && w.queue[0].handler.OnValue?
    requires w.queue[0].handler.c < |w.combinators| && w.combinators[w.queue[0].handler.c].kind == AnyKind
    ensures var t := w.queue[0];
      var w1 := w.(queue := w.queue[1..]);
      ClosureOk(w1, t.handler.c, t.handler.index)
      && Inv(OnValueEffect(w1, t.handler.c, t.handler.index, w1.promises[t.source].result))
  {
    var t := w.queue[0];
    var c := t.handler.c;
    var w1 := w.(queue := w.queue[1..]);
    PopClosure(w);
    PopClosureInv(w);
    SettleTargetInv(w1, c, Fulfilled, w.promises[t.source].result);
  }

  /** Counting the rejection of input `i` of an `any` call whose closure
      pair `i` just ran. */
  lemma AnyCount(w: World, w2: World, c: CombinatorId, i: nat)
    requires c < |w.combinators| && CombinatorOk(|w.promises|, w.combinators[c])
    requires w.combinators[c].kind == AnyKind && AnyInv(w, w.combinators[c], c)
    requires i < |w.combinators[c].inputs| && w2.promises == w.promises
    requires w.promises[w.combinators[c].inputs[i]].state == Rejected
    requires Live(w, c, i) == 1 && Live(w2, c, i) == 0
    requires forall j :: 0 <= j < |w.combinators[c].inputs| && j != i ==> Live(w2, c, j) == Live(w, c, j)
    ensures var cb := w.combinators[c]; AnyInv(w2, cb.(count := cb.count + 1), c)
  {
    var cb := w.combinators[c];
    var n := |cb.inputs|;
    forall j | 0 <= j < n && j != i
      ensures Fired(w, c, cb.inputs, j) <==> Fired(w2, c, cb.inputs, j)
    {
    }
    CountFiredBump(w, w2, c, cb.inputs, i, n);
    CountFiredBound(w2, c, cb.inputs, n);
  }

  /** The rejection counted, before `any` may give up. */
  lemma AnyCountStore(w: World)
    requires Inv(w) && w.queue != [] && w.queue[0].handler.OnReason?
    requires w.queue[0].handler.c < |w.combinators| && w.combinators[w.queue[0].handler.c].kind == AnyKind
    ensures var c := w.queue[0].handler.c;
      var cb := w.combinators[c];
      Inv(Store(w.(queue := w.queue[1..]), c, cb.(count := cb.count + 1)))
  {
    var t := w.queue[0];
    var c := t.handler.c;
    var i := t.handler.index;
    var w1 := w.(queue := w.queue[1..]);
    var cb := w.combinators[c];
    assert CombInv(w, c) && AnyInv(w, cb, c);
    var cb' := cb.(count := cb.count + 1);
    var w2 := Store(w1, c, cb');
    StoreLive(w, cb');
    AnyCount(w, w2, c, i);
    StoreInv(w, cb');
  }

  /** An `any` call that counted as many rejections as inputs rejects with
      `NoneFulfilled`. */
  lemma RejectWhenAllCounted(w: World, c: CombinatorId)
    requires Inv(w) && c < |w.combinators| && w.combinators[c].kind == AnyKind
    requires w.combinators[c].count > 0
    ensures var cb := w.combinators[c];
      Inv(if cb.count == |cb.inputs| then Settle(w, cb.target, Rejected, NoneFulfilled) else w)
  {
    var cb := w.combinators[c];
    if cb.count == |cb.inputs| {
      assert CombInv(w, c);
      SettleTargetInv(w, c, Rejected, NoneFulfilled);
    }
  }

  /** `any`, rejection closure: `count++`, and the "No promises fulfilled."
      rejection once the count reaches the input length. */
  lemma AnyReasonStep(w: World)
    requires Inv(w) && w.queue != [] && w.queue[0].handler.OnReason?
    requires w.queue[0].handler.c < |w.combinators| && w.combinators[w.queue[0].handler.c].kind == AnyKind
    ensures var t := w.queue[0];
      var w1 := w.(queue := w.queue[1..]);
      ClosureOk(w1, t.handler.c, t.handler.index)
      && Inv(OnReasonEffect(w1, t.handler.c, t.handler.index, w1.promises[t.source].result))
  {
    var t := w.queue[0];
    var c := t.handler.c;
    var w1 := w.(queue := w.queue[1..]);
    assert TaskOk(w, t);
    var cb := w.combinators[c];
    AnyCountStore(w);
    RejectWhenAllCounted(Store(w1, c, cb.(count := cb.count + 1)), c);
  }

  // ---------------------------------------------------------------------
  // One turn of the host

  /** A closure never touches which promises the calls return. */
  lemma ClosureKeepsCalls(w: World, h: Handler, arg: Value)
    requires IsClosure(h) && Callable(w, h)
    ensures |Invoke(w, h, arg).0.combinators| == |w.combinators|
    ensures forall c :: 0 <= c < |w.combinators| ==> Invoke(w, h, arg).0.combinators[c].target == w.combinators[c].target
    ensures Invoke(w, h, arg).1 == Normal(Undefined)
  {
  }

  lemma ClosureRunInv(w: World)
    requires Inv(w) && w.queue != [] && IsClosure(w.queue[0].handler)
    ensures Inv(Step(w))
  {
    var t := w.queue[0];
    var h := t.handler;
    var w1 := w.(queue := w.queue[1..]);
    PopClosure(w);
    var c := h.c;
    var arg := w1.promises[t.source].result;
    match w.combinators[c].kind {
      case AllKind =>
        if h.OnValue? { AllValueStep(w); } else { AllReasonStep(w); }
      case AllSettledKind =>
        if h.OnValue? { AllSettledValueStep(w); } else { AllSettledReasonStep(w); }
      case AnyKind =>
        if h.OnValue? { AnyValueStep(w); } else { AnyReasonStep(w); }
    }
    var w2 := Invoke(w1, h, arg).0;
    assert Inv(w2);
    ClosureKeepsCalls(w1, h, arg);
    assert NotTarget(w2, t.derived);
    assert Step(w) == Settle(w2, t.derived, Fulfilled, Undefined);
    SettleInv(w2, t.derived, Fulfilled, Undefined);
  }

  /** Running the oldest microtask keeps the invariant. */
  lemma StepInv(w: World)
    requires Inv(w)
    ensures Inv(Step(w))
  {
    if w.queue != [] {
      var t := w.queue[0];
      if IsClosure(t.handler) {
        ClosureRunInv(w);
      } else {
        var w1 := w.(queue := w.queue[1..]);
        PopInv(w);
        assert TaskSafe(w, t) && TaskOk(w, t);
        ExecuteCallbackInv(w1, t.source, t.handler, t.derived);
      }
    }
  }
}
