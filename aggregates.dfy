/** The closures that `all`, `allSettled` and `any` pass to `then` for each
    input: they update the call's shared `count` and result array and
    settle the combined promise (promise.js:85-91, 101-109, 130-135). */
module Aggregates {
  import opened Types
  import opened Core

  /** The array handed to `resolve`: an unwritten index reads as undefined. */
  function Dense(slots: seq<Option<Value>>): (r: seq<Value>) {
    seq(|slots|, k requires 0 <= k < |slots| => if slots[k].Some? then slots[k].value else Undefined)
  }

  /** The reason `any` rejects with: `new Error('No promises fulfilled.')`. */
  const NoneFulfilled := Error("Error", "No promises fulfilled.")

  /** Closure `index` of combinator call `c` exists and its state is sound. */
  predicate ClosureOk(w: World, c: CombinatorId, index: nat) {
    c < |w.combinators| && index < |w.combinators[c].inputs| && CombinatorOk(|w.promises|, w.combinators[c])
  }

  function Store(w: World, c: CombinatorId, cb: Combinator): (r: World)
    requires c < |w.combinators|
  {
    w.(combinators := w.combinators[c := cb])
  }

  /** The fulfilment closure for input `index`, called with `value`:
      `all` counts and stores the value, `allSettled` stores
      `{status: 'fulfilled', value}` and counts, and both resolve with the
      array once `count` reaches the input length; `any` resolves. */
  function OnValueEffect(w: World, c: CombinatorId, index: nat, value: Value): (r: World)
    requires ClosureOk(w, c, index)
    ensures |r.promises| == |w.promises| && |r.combinators| == |w.combinators|
    ensures w.combinators[c].kind == AnyKind ==> r.promises[w.combinators[c].target].state != Pending
    ensures w.combinators[c].kind != AnyKind ==> r.combinators[c].count == w.combinators[c].count + 1
  {
    var cb := w.combinators[c];
    match cb.kind
    case AllKind =>
      var cb' := cb.(count := cb.count + 1, slots := cb.slots[index := Some(value)]);
      var w' := Store(w, c, cb');
      if cb'.count == |cb.inputs| then Settle(w', cb.target, Fulfilled, List(Dense(cb'.slots))) else w'
    case AllSettledKind =>
      var cb' := cb.(slots := cb.slots[index := Some(StatusRecord("fulfilled", value))], count := cb.count + 1);
      var w' := Store(w, c, cb');
      if cb'.count == |cb.inputs| then Settle(w', cb.target, Fulfilled, List(Dense(cb'.slots))) else w'
    case AnyKind =>
      Settle(w, cb.target, Fulfilled, value)
  }

  /** The rejection closure for input `index`, called with `reason`: `all`
      rejects; `allSettled` stores `{status: 'rejected', value: reason}`,
      counts and resolves at the input length; `any` counts and rejects
      with `NoneFulfilled` at the input length. */
  function OnReasonEffect(w: World, c: CombinatorId, index: nat, reason: Value): (r: World)
    requires ClosureOk(w, c, index)
    ensures |r.promises| == |w.promises| && |r.combinators| == |w.combinators|
    ensures w.combinators[c].kind == AllKind ==> r.promises[w.combinators[c].target].state != Pending
    ensures w.combinators[c].kind != AllKind ==> r.combinators[c].count == w.combinators[c].count + 1
  {
    var cb := w.combinators[c];
    match cb.kind
    case AllKind =>
      Settle(w, cb.target, Rejected, reason)
    case AllSettledKind =>
      var cb' := cb.(slots := cb.slots[index := Some(StatusRecord("rejected", reason))], count := cb.count + 1);
      var w' := Store(w, c, cb');
      if cb'.count == |cb.inputs| then Settle(w', cb.target, Fulfilled, List(Dense(cb'.slots))) else w'
    case AnyKind =>
      var cb' := cb.(count := cb.count + 1);
      var w' := Store(w, c, cb');
      if cb'.count == |cb.inputs| then Settle(w', cb.target, Rejected, NoneFulfilled) else w'
  }
}
