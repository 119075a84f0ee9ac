/** What `all`, `allSettled` and `any` guarantee about the promise they
    return, in every world that keeps the invariant (every world the
    runtime can reach). */
module Theorems {
  import opened Types
  import opened Aggregates
  import opened Invariant
  import opened Counting

  /** The results of the inputs, in input order. */
  function InputResults(w: World, inputs: seq<PromiseId>): (r: seq<Value>)
    requires forall j :: 0 <= j < |inputs| ==> inputs[j] < |w.promises|
  {
    seq(|inputs|, j requires 0 <= j < |inputs| => w.promises[inputs[j]].result)
  }

  /** The `{status, value}` records of the inputs, in input order. */
  function InputOutcomes(w: World, inputs: seq<PromiseId>): (r: seq<Value>)
    requires forall j :: 0 <= j < |inputs| ==> inputs[j] < |w.promises|
  {
    seq(|inputs|, j requires 0 <= j < |inputs| => Outcome(w.promises[inputs[j]]))
  }

  /** `Promise.all` fulfils only when every input is fulfilled, and then
      with their values in input order; it rejects only with the reason of
      a rejected input. */
  lemma AllOutcome(w: World, c: CombinatorId)
    requires Inv(w) && c < |w.combinators| && w.combinators[c].kind == AllKind
    ensures var cb := w.combinators[c];
      var t := w.promises[cb.target];
      && (forall j :: 0 <= j < |cb.inputs| ==> cb.inputs[j] < |w.promises|)
      && (t.state == Fulfilled ==>
            && |cb.inputs| > 0
            && (forall j :: 0 <= j < |cb.inputs| ==> w.promises[cb.inputs[j]].state == Fulfilled)
            && t.result == List(InputResults(w, cb.inputs)))
      && (t.state == Rejected ==>
            exists j :: 0 <= j < |cb.inputs| && w.promises[cb.inputs[j]].state == Rejected
                        && w.promises[cb.inputs[j]].result == t.result)
  {
    var cb := w.combinators[c];
    assert CombInv(w, c) && AllInv(w, cb, c);
    if w.promises[cb.target].state == Fulfilled {
      assert Dense(cb.slots) == InputResults(w, cb.inputs);
    }
  }

  /** `Promise.allSettled` never rejects; it fulfils only when every input
      is settled, and then with their `{status, value}` records in input
      order. */
  lemma AllSettledOutcome(w: World, c: CombinatorId)
    requires Inv(w) && c < |w.combinators| && w.combinators[c].kind == AllSettledKind
    ensures var cb := w.combinators[c];
      var t := w.promises[cb.target];
      && (forall j :: 0 <= j < |cb.inputs| ==> cb.inputs[j] < |w.promises|)
      && t.state != Rejected
      && (t.state == Fulfilled ==>
            && |cb.inputs| > 0
            && (forall j :: 0 <= j < |cb.inputs| ==> w.promises[cb.inputs[j]].state != Pending)
            && t.result == List(InputOutcomes(w, cb.inputs)))
  {
    var cb := w.combinators[c];
    assert CombInv(w, c) && AllSettledInv(w, cb, c);
    if w.promises[cb.target].state == Fulfilled {
      assert Dense(cb.slots) == InputOutcomes(w, cb.inputs);
    }
  }

  /** `Promise.any` fulfils only with the value of a fulfilled input, and
      rejects only when there is at least one input and every input is
      rejected, with `Error('No promises fulfilled.')`. */
  lemma AnyOutcome(w: World, c: CombinatorId)
    requires Inv(w) && c < |w.combinators| && w.combinators[c].kind == AnyKind
    ensures var cb := w.combinators[c];
      var t := w.promises[cb.target];
      && (forall j :: 0 <= j < |cb.inputs| ==> cb.inputs[j] < |w.promises|)
      && (t.state == Fulfilled ==>
            exists j :: 0 <= j < |cb.inputs| && w.promises[cb.inputs[j]].state == Fulfilled
                        && w.promises[cb.inputs[j]].result == t.result)
      && (t.state == Rejected ==>
            && |cb.inputs| > 0
            && (forall j :: 0 <= j < |cb.inputs| ==> w.promises[cb.inputs[j]].state == Rejected)
            && t.result == NoneFulfilled)
  {
    var cb := w.combinators[c];
    assert CombInv(w, c) && AnyInv(w, cb, c);
    CountFiredBound(w, c, cb.inputs, |cb.inputs|);
    if w.promises[cb.target].state == Rejected {
      forall j | 0 <= j < |cb.inputs|
        ensures w.promises[cb.inputs[j]].state == Rejected
      {
        assert Fired(w, c, cb.inputs, j);
      }
    }
  }

  /** Once `count` of an `all` or `allSettled` call reaches the input
      length, every index of the array is written, and the array its
      closure resolves with is, in input order, the inputs' results (for
      `all`, every input is then fulfilled) or their `{status, value}`
      records (for `allSettled`, every input is then settled). */
  lemma FullArray(w: World, c: CombinatorId)
    requires Inv(w) && c < |w.combinators| && w.combinators[c].kind != AnyKind
    requires w.combinators[c].count == |w.combinators[c].inputs|
    ensures var cb := w.combinators[c];
      && (forall j :: 0 <= j < |cb.inputs| ==> cb.inputs[j] < |w.promises|)
      && (forall j :: 0 <= j < |cb.slots| ==> cb.slots[j].Some?)
      && (cb.kind == AllKind ==>
            && (forall j :: 0 <= j < |cb.inputs| ==> w.promises[cb.inputs[j]].state == Fulfilled)
            && Dense(cb.slots) == InputResults(w, cb.inputs))
      && (cb.kind == AllSettledKind ==>
            && (forall j :: 0 <= j < |cb.inputs| ==> w.promises[cb.inputs[j]].state != Pending)
            && Dense(cb.slots) == InputOutcomes(w, cb.inputs))
  {
    var cb := w.combinators[c];
    assert CombInv(w, c);
    CountSomeBound(cb.slots);
    if cb.kind == AllKind {
      assert AllInv(w, cb, c);
      assert Dense(cb.slots) == InputResults(w, cb.inputs);
    } else {
      assert AllSettledInv(w, cb, c);
      assert Dense(cb.slots) == InputOutcomes(w, cb.inputs);
    }
  }

  /** With no inputs, none of the three ever settles: the closures that
      would settle it are never created. */
  lemma EmptyInputNeverSettles(w: World, c: CombinatorId)
    requires Inv(w) && c < |w.combinators| && w.combinators[c].inputs == []
    ensures w.combinators[c].target < |w.promises| && w.promises[w.combinators[c].target].state == Pending
  {
    var cb := w.combinators[c];
    match cb.kind {
      case AllKind => AllOutcome(w, c);
      case AllSettledKind => AllSettledOutcome(w, c);
      case AnyKind => AnyOutcome(w, c);
    }
  }

  /** The count never passes the input length: each input's closure pair
      counts at most once. */
  lemma CountBound(w: World, c: CombinatorId)
    requires Inv(w) && c < |w.combinators|
    ensures w.combinators[c].count <= |w.combinators[c].inputs|
  {
    var cb := w.combinators[c];
    assert CombInv(w, c);
    if cb.kind == AnyKind {
      CountFiredBound(w, c, cb.inputs, |cb.inputs|);
    } else {
      CountSomeBound(cb.slots);
    }
  }

  /** Each input's closure pair runs at most once, and is still to run
      while that input is pending. */
  lemma InputWaitsOnce(w: World, c: CombinatorId, i: nat)
    requires Inv(w) && c < |w.combinators| && i < |w.combinators[c].inputs|
    ensures w.combinators[c].inputs[i] < |w.promises|
    ensures Live(w, c, i) <= 1
    ensures w.promises[w.combinators[c].inputs[i]].state == Pending ==> Live(w, c, i) == 1
  {
    assert Unique(w, c, i);
  }
}
