/** `Promise.resolve` and `Promise.reject` (promise.js:67-78). */
module Statics {
  import opened Types
  import opened Core
  import opened Chaining

  /** `Promise.resolve(value)`: a promise value is adopted through
      `value.then(resolve, reject)`; anything else fulfils at once. */
  function PromiseResolve(w: World, value: Value): (r: (World, PromiseId))
    requires RefOk(|w.promises|, value)
    ensures r.1 == |w.promises| && |w.promises| < |r.0.promises| && r.0.combinators == w.combinators
    ensures value.Ref? <==> r.0.promises[r.1].state == Pending
  {
    var (w1, p) := Allocate(w);
    if value.Ref? then (Then(w1, value.id, Some(ResolveOf(p)), Some(RejectOf(p))).0, p)
    else (Settle(w1, p, Fulfilled, value), p)
  }

  /** `Promise.reject(reason)`: rejected at once, `reason` never unwrapped. */
  function PromiseReject(w: World, reason: Value): (r: (World, PromiseId))
    ensures r.1 == |w.promises| && |r.0.promises| == |w.promises| + 1 && r.0.combinators == w.combinators
    ensures r.0.promises[r.1].state == Rejected && r.0.promises[r.1].result == reason
  {
    var (w1, p) := Allocate(w);
    (Settle(w1, p, Rejected, reason), p)
  }
}
