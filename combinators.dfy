/** `Promise.all`, `Promise.allSettled`, `Promise.any` and `Promise.race`
    (promise.js:80-138). */
module Combinators {
  import opened Types
  import opened Core
  import opened Chaining

  predicate InputsOk(w: World, inputs: seq<PromiseId>) {
    forall j :: 0 <= j < |inputs| ==> inputs[j] < |w.promises|
  }

  /** `promises.forEach((promise, index) => promise.then(...))` over the
      first `k` inputs, registering the closures of combinator call `c`. */
  function Subscribe(w: World, c: CombinatorId, inputs: seq<PromiseId>, k: nat): (r: World)
    requires k <= |inputs| && InputsOk(w, inputs)
    ensures |r.promises| == |w.promises| + k && r.combinators == w.combinators
  {
    if k == 0 then w
    else Then(Subscribe(w, c, inputs, k - 1), inputs[k - 1], Some(OnValue(c, k - 1)), Some(OnReason(c, k - 1))).0
  }

  /** The shared shape of `all`, `allSettled` and `any`: fresh `count = 0`
      and result array, a new promise, then one `then` per input. */
  function Start(w: World, kind: Kind, inputs: seq<PromiseId>): (r: (World, PromiseId))
    requires InputsOk(w, inputs)
    ensures r.1 == |w.promises| && |r.0.promises| == |w.promises| + 1 + |inputs|
    ensures |r.0.combinators| == |w.combinators| + 1 && r.0.combinators[..|w.combinators|] == w.combinators
    ensures var cb := r.0.combinators[|w.combinators|];
      cb.kind == kind && cb.target == r.1 && cb.inputs == inputs && cb.count == 0
  {
    (Subscribe(Recorded(w, kind, inputs), |w.combinators|, inputs, |inputs|), |w.promises|)
  }

  /** The unwritten `values`/`errors` array of a new call: one slot per
      input for `all` and `allSettled`, and none for `any`. */
  function InitialSlots(kind: Kind, n: nat): (r: seq<Option<Value>>) {
    if kind == AnyKind then [] else seq(n, _ => None)
  }

  /** The world right after a combinator call allocated its promise and
      recorded its call, before its `forEach`. */
  function Recorded(w: World, kind: Kind, inputs: seq<PromiseId>): (r: World) {
    var (w1, p) := Allocate(w);
    w1.(combinators := w1.combinators + [Combinator(kind, p, inputs, 0, InitialSlots(kind, |inputs|))])
  }

  function All(w: World, inputs: seq<PromiseId>): (r: (World, PromiseId))
    requires InputsOk(w, inputs)
    ensures |r.0.combinators| == |w.combinators| + 1 && r.0.combinators[|w.combinators|].kind == AllKind
    ensures r.0.combinators[|w.combinators|].target == r.1 && r.0.combinators[|w.combinators|].inputs == inputs
  {
    Start(w, AllKind, inputs)
  }

  function AllSettled(w: World, inputs: seq<PromiseId>): (r: (World, PromiseId))
    requires InputsOk(w, inputs)
    ensures |r.0.combinators| == |w.combinators| + 1 && r.0.combinators[|w.combinators|].kind == AllSettledKind
    ensures r.0.combinators[|w.combinators|].target == r.1 && r.0.combinators[|w.combinators|].inputs == inputs
  {
    Start(w, AllSettledKind, inputs)
  }

  function Any(w: World, inputs: seq<PromiseId>): (r: (World, PromiseId))
    requires InputsOk(w, inputs)
    ensures |r.0.combinators| == |w.combinators| + 1 && r.0.combinators[|w.combinators|].kind == AnyKind
    ensures r.0.combinators[|w.combinators|].target == r.1 && r.0.combinators[|w.combinators|].inputs == inputs
  {
    Start(w, AnyKind, inputs)
  }

  /** The exception `race`'s executor throws on its first iteration: it
      reads the undeclared variable `promise`. */
  const RaceError := Error("ReferenceError", "promise is not defined")

  /** `Promise.race` as written: with any input the loop body throws, so the
      promise is rejected with the ReferenceError; with none it stays
      pending. */
  function Race(w: World, inputs: seq<PromiseId>): (r: (World, PromiseId))
    ensures r.1 == |w.promises| && |r.0.promises| == |w.promises| + 1
    ensures r.0.queue == w.queue && r.0.combinators == w.combinators
    ensures r.0.promises[r.1].state == Rejected <==> |inputs| > 0
  {
    var (w1, p) := Allocate(w);
    if |inputs| > 0 then (Settle(w1, p, Rejected, RaceError), p) else (w1, p)
  }
}
