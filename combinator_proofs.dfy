/** Properties of one call of `all`, `allSettled`, `any` and `race`: how a
    call subscribes to its inputs, and what each of its closures does to
    the shared `count`, the result array and the combined promise. */
module CombinatorProofs {
  import opened Types
  import opened Core
  import opened Aggregates
  import opened Chaining
  import opened Combinators
  import opened ChainingProofs

  /** The closure pair of combinator call `c` for input `j`. */
  function Pair(c: CombinatorId, j: nat, d: PromiseId): (r: Callback) {
    Callback(OnValue(c, j), OnReason(c, j), d)
  }

  /** The task that runs the closure of input `j` for an input already
      settled with `st`. */
  function PairTask(source: PromiseId, c: CombinatorId, j: nat, st: PromiseState, d: PromiseId): (r: Task) {
    Task(source, if st == Fulfilled then OnValue(c, j) else OnReason(c, j), d)
  }

  /** One `then` of the `forEach`: states and results stay, callbacks and
      queued tasks are only appended to. */
  predicate Extends(w: World, w': World) {
    && |w.promises| <= |w'.promises|
    && (forall q :: 0 <= q < |w.promises| ==>
          w'.promises[q].state == w.promises[q].state && w'.promises[q].result == w.promises[q].result
          && w.promises[q].callbacks <= w'.promises[q].callbacks)
    && w.queue <= w'.queue
  }

  lemma ExtendsTrans(w: World, w1: World, w2: World)
    requires Extends(w, w1) && Extends(w1, w2)
    ensures Extends(w, w2)
  {
    forall q | 0 <= q < |w.promises|
      ensures w.promises[q].callbacks <= w2.promises[q].callbacks
    {
      assert w.promises[q].callbacks <= w1.promises[q].callbacks;
    }
  }

  lemma ThenExtends(w: World, p: PromiseId, onFulfilled: Option<Handler>, onRejected: Option<Handler>)
    requires p < |w.promises|
    ensures Extends(w, Then(w, p, onFulfilled, onRejected).0)
  {
    ThenDefers(w, p, onFulfilled, onRejected);
  }

  /** The closure pair that `then` adds: a callback on a pending promise,
      or a task on a settled one. */
  lemma ThenAdds(w: World, x: PromiseId, c: CombinatorId, j: nat)
    requires x < |w.promises|
    ensures var w' := Then(w, x, Some(OnValue(c, j)), Some(OnReason(c, j))).0;
      && (w.promises[x].state == Pending ==> w'.promises[x].callbacks == w.promises[x].callbacks + [Pair(c, j, |w.promises|)])
      && (w.promises[x].state != Pending ==> w'.queue == w.queue + [PairTask(x, c, j, w.promises[x].state, |w.promises|)])
  {
  }

  /** `forEach` over the first `k` inputs: every promise keeps its state and
      result, old callbacks and old tasks stay in place, the `k` promises
      returned by `then` are fresh and a promise that is not an input is
      untouched. */
  lemma {:induction false} SubscribeExtends(w: World, c: CombinatorId, inputs: seq<PromiseId>, k: nat)
    requires k <= |inputs| && InputsOk(w, inputs)
    ensures Extends(w, Subscribe(w, c, inputs, k))
    ensures forall q :: |w.promises| <= q < |w.promises| + k ==> Subscribe(w, c, inputs, k).promises[q] == FreshRecord
    ensures forall q :: 0 <= q < |w.promises| && q !in inputs[..k] ==> Subscribe(w, c, inputs, k).promises[q] == w.promises[q]
  {
    if k > 0 {
      var w1 := Subscribe(w, c, inputs, k - 1);
      var x := inputs[k - 1];
      SubscribeExtends(w, c, inputs, k - 1);
      ThenExtends(w1, x, Some(OnValue(c, k - 1)), Some(OnReason(c, k - 1)));
      ThenDefers(w1, x, Some(OnValue(c, k - 1)), Some(OnReason(c, k - 1)));
      ExtendsTrans(w, w1, Subscribe(w, c, inputs, k));
      assert inputs[..k] == inputs[..k - 1] + [x];
    }
  }

  lemma StaysIn<T>(a: seq<T>, b: seq<T>, x: T)
    requires a <= b && x in a
    ensures x in b
  {
    var i :| 0 <= i < |a| && a[i] == x;
    assert b[i] == x;
  }

  /** The `k`-th `then` of the `forEach`: the states from before the loop
      are kept, old callbacks and tasks stay, and the pair of index `k - 1`
      is added to input `k - 1`. */
  lemma SubscribeStep(w: World, c: CombinatorId, inputs: seq<PromiseId>, k: nat)
    requires 0 < k <= |inputs| && InputsOk(w, inputs)
    ensures var w1 := Subscribe(w, c, inputs, k - 1);
      var w' := Subscribe(w, c, inputs, k);
      var x := inputs[k - 1];
      var n := |w.promises|;
      && |w1.promises| == n + k - 1
      && (forall y :: 0 <= y < n ==> w1.promises[y].state == w.promises[y].state)
      && (forall y :: 0 <= y < n ==> w1.promises[y].callbacks <= w'.promises[y].callbacks)
      && w1.queue <= w'.queue
      && (w1.promises[x].state == Pending ==> w'.promises[x].callbacks == w1.promises[x].callbacks + [Pair(c, k - 1, n + k - 1)])
      && (w1.promises[x].state != Pending ==> w'.queue == w1.queue + [PairTask(x, c, k - 1, w1.promises[x].state, n + k - 1)])
  {
    var w1 := Subscribe(w, c, inputs, k - 1);
    var x := inputs[k - 1];
    SubscribeExtends(w, c, inputs, k - 1);
    ThenExtends(w1, x, Some(OnValue(c, k - 1)), Some(OnReason(c, k - 1)));
    ThenAdds(w1, x, c, k - 1);
  }

  /** After the first `k` iterations of the `forEach`, a pending input
      `j < k` carries the closure pair of index `j` for the promise that the
      `j`-th `then` returned. */
  lemma {:induction false} RegisteredAt(w: World, c: CombinatorId, inputs: seq<PromiseId>, k: nat, j: nat)
    requires j < k <= |inputs| && InputsOk(w, inputs) && w.promises[inputs[j]].state == Pending
    ensures Pair(c, j, |w.promises| + j) in Subscribe(w, c, inputs, k).promises[inputs[j]].callbacks
  {
    SubscribeStep(w, c, inputs, k);
    var y := inputs[j];
    if j < k - 1 {
      RegisteredAt(w, c, inputs, k - 1, j);
      StaysIn(Subscribe(w, c, inputs, k - 1).promises[y].callbacks, Subscribe(w, c, inputs, k).promises[y].callbacks,
              Pair(c, j, |w.promises| + j));
    }
  }

  /** After the first `k` iterations, a settled input `j < k` has the
      closure of index `j` matching its state queued for the promise the
      `j`-th `then` returned. */
  lemma {:induction false} QueuedAt(w: World, c: CombinatorId, inputs: seq<PromiseId>, k: nat, j: nat)
    requires j < k <= |inputs| && InputsOk(w, inputs) && w.promises[inputs[j]].state != Pending
    ensures PairTask(inputs[j], c, j, w.promises[inputs[j]].state, |w.promises| + j) in Subscribe(w, c, inputs, k).queue
  {
    SubscribeStep(w, c, inputs, k);
    var y := inputs[j];
    if j < k - 1 {
      QueuedAt(w, c, inputs, k - 1, j);
      StaysIn(Subscribe(w, c, inputs, k - 1).queue, Subscribe(w, c, inputs, k).queue,
              PairTask(y, c, j, w.promises[y].state, |w.promises| + j));
    }
  }

  /** After the `forEach`, every pending input `j` carries closure pair `j`. */
  lemma SubscribeRegisters(w: World, c: CombinatorId, inputs: seq<PromiseId>, k: nat)
    requires k <= |inputs| && InputsOk(w, inputs)
    ensures forall j :: 0 <= j < k && w.promises[inputs[j]].state == Pending ==>
              Pair(c, j, |w.promises| + j) in Subscribe(w, c, inputs, k).promises[inputs[j]].callbacks
  {
    forall j | 0 <= j < k && w.promises[inputs[j]].state == Pending
      ensures Pair(c, j, |w.promises| + j) in Subscribe(w, c, inputs, k).promises[inputs[j]].callbacks
    {
      RegisteredAt(w, c, inputs, k, j);
    }
  }

  /** After the `forEach`, every settled input `j` has closure `j` queued. */
  lemma SubscribeQueues(w: World, c: CombinatorId, inputs: seq<PromiseId>, k: nat)
    requires k <= |inputs| && InputsOk(w, inputs)
    ensures forall j :: 0 <= j < k && w.promises[inputs[j]].state != Pending ==>
              PairTask(inputs[j], c, j, w.promises[inputs[j]].state, |w.promises| + j) in Subscribe(w, c, inputs, k).queue
  {
    forall j | 0 <= j < k && w.promises[inputs[j]].state != Pending
      ensures PairTask(inputs[j], c, j, w.promises[inputs[j]].state, |w.promises| + j) in Subscribe(w, c, inputs, k).queue
    {
      QueuedAt(w, c, inputs, k, j);
    }
  }

  /** The `forEach` of a combinator call, seen from the world before the
      call: closure pair `j` is registered on a pending input `j` and
      queued for a settled one. */
  lemma StartSubscribes(w: World, kind: Kind, inputs: seq<PromiseId>)
    requires InputsOk(w, inputs)
    ensures var w' := Start(w, kind, inputs).0;
      var c := |w.combinators|;
      var n := |w.promises|;
      && (forall j :: 0 <= j < |inputs| && w.promises[inputs[j]].state == Pending ==>
            Pair(c, j, n + 1 + j) in w'.promises[inputs[j]].callbacks)
      && (forall j :: 0 <= j < |inputs| && w.promises[inputs[j]].state != Pending ==>
            PairTask(inputs[j], c, j, w.promises[inputs[j]].state, n + 1 + j) in w'.queue)
  {
    var w2 := Recorded(w, kind, inputs);
    assert Start(w, kind, inputs).0 == Subscribe(w2, |w.combinators|, inputs, |inputs|);
    assert forall q :: 0 <= q < |w.promises| ==> w2.promises[q] == w.promises[q];
    SubscribeRegisters(w2, |w.combinators|, inputs, |inputs|);
    SubscribeQueues(w2, |w.combinators|, inputs, |inputs|);
  }

  /** A call of `all`, `allSettled` or `any` returns a new pending promise,
      records a fresh call state (`count` 0, every index unwritten) and
      subscribes closure pair `j` to input `j`; it settles nothing. */
  lemma StartFacts(w: World, kind: Kind, inputs: seq<PromiseId>)
    requires InputsOk(w, inputs)
    ensures var (w', p) := Start(w, kind, inputs);
      var c := |w.combinators|;
      var n := |w.promises|;
      && p == n
      && w'.promises[p] == FreshRecord
      && w'.combinators == w.combinators + [Combinator(kind, p, inputs, 0, InitialSlots(kind, |inputs|))]
      && (forall q :: 0 <= q < n ==> w'.promises[q].state == w.promises[q].state && w'.promises[q].result == w.promises[q].result)
      && w.queue <= w'.queue
      && (forall j :: 0 <= j < |inputs| && w.promises[inputs[j]].state == Pending ==>
            Pair(c, j, n + 1 + j) in w'.promises[inputs[j]].callbacks)
      && (forall j :: 0 <= j < |inputs| && w.promises[inputs[j]].state != Pending ==>
            PairTask(inputs[j], c, j, w.promises[inputs[j]].state, n + 1 + j) in w'.queue)
  {
    var w2 := Recorded(w, kind, inputs);
    assert Start(w, kind, inputs).0 == Subscribe(w2, |w.combinators|, inputs, |inputs|);
    SubscribeExtends(w2, |w.combinators|, inputs, |inputs|);
    assert |w.promises| !in inputs[..|inputs|];
    StartSubscribes(w, kind, inputs);
  }

  /** With an empty input array the combined promise is pending and no
      closure of the call can exist (there is no index to give it), so
      nothing can ever settle it through the call's own closures. */
  lemma EmptyInputNoClosure(w: World, kind: Kind)
    ensures var (w', p) := Start(w, kind, []);
      var c := |w.combinators|;
      && w'.promises[p] == FreshRecord
      && w'.queue == w.queue
      && forall i: nat :: !HandlerOk(w', OnValue(c, i)) && !HandlerOk(w', OnReason(c, i))
  {
    StartFacts(w, kind, []);
  }

  /** `all`, fulfilment closure `index`: it writes `values[index]` and
      counts one more fulfilment whether or not the combined promise is
      still pending; a pending combined promise is resolved with the whole
      array exactly when the count reaches the input length, and a settled
      one stays as it is.  No other promise and no other call changes. */
  lemma AllOnValue(w: World, c: CombinatorId, index: nat, value: Value)
    requires ClosureOk(w, c, index) && w.combinators[c].kind == AllKind
    ensures var cb := w.combinators[c];
      var w' := OnValueEffect(w, c, index, value);
      var slots' := cb.slots[index := Some(value)];
      var pending := w.promises[cb.target].state == Pending;
      && w'.combinators == w.combinators[c := cb.(count := cb.count + 1, slots := slots')]
      && (forall q :: 0 <= q < |w.promises| && q != cb.target ==> w'.promises[q] == w.promises[q])
      && (pending ==> (w'.promises[cb.target].state == Fulfilled <==> cb.count + 1 == |cb.inputs|))
      && (pending && w'.promises[cb.target].state == Fulfilled ==> w'.promises[cb.target].result == List(Dense(slots')))
      && (pending ==> w'.promises[cb.target].state != Rejected)
      && (!pending ==> w'.promises == w.promises && w'.queue == w.queue)
  {
  }

  /** `all`, rejection closure: a pending combined promise is rejected with
      the reason, a settled one is left as it is; nothing is recorded. */
  lemma AllOnReason(w: World, c: CombinatorId, index: nat, reason: Value)
    requires ClosureOk(w, c, index) && w.combinators[c].kind == AllKind
    ensures var cb := w.combinators[c];
      var w' := OnReasonEffect(w, c, index, reason);
      var pending := w.promises[cb.target].state == Pending;
      && w'.combinators == w.combinators
      && (pending ==> w'.promises[cb.target].state == Rejected && w'.promises[cb.target].result == reason)
      && (forall q :: 0 <= q < |w.promises| && q != cb.target ==> w'.promises[q] == w.promises[q])
      && (!pending ==> w' == w)
  {
  }

  /** `allSettled` records both outcomes at the closure's own index as a
      `{status, value}` object (a rejection reason under the key `value`),
      counts it, and never rejects the combined promise. */
  lemma AllSettledRecords(w: World, c: CombinatorId, index: nat, v: Value, fulfilled: bool)
    requires ClosureOk(w, c, index) && w.combinators[c].kind == AllSettledKind
    ensures var cb := w.combinators[c];
      var w' := if fulfilled then OnValueEffect(w, c, index, v) else OnReasonEffect(w, c, index, v);
      var slots' := cb.slots[index := Some(StatusRecord(if fulfilled then "fulfilled" else "rejected", v))];
      && w'.combinators == w.combinators[c := cb.(count := cb.count + 1, slots := slots')]
      && (w'.promises[cb.target].state == Rejected <==> w.promises[cb.target].state == Rejected)
      && (w.promises[cb.target].state == Pending ==>
            (w'.promises[cb.target].state == Fulfilled <==> cb.count + 1 == |cb.inputs|))
      && (w.promises[cb.target].state == Pending && cb.count + 1 == |cb.inputs| ==>
            w'.promises[cb.target].result == List(Dense(slots')))
  {
  }

  /** `any`, fulfilment closure: the first fulfilment settles the combined
      promise with its value; once it is settled a later closure call
      changes nothing at all. */
  lemma AnyOnValue(w: World, c: CombinatorId, index: nat, value: Value)
    requires ClosureOk(w, c, index) && w.combinators[c].kind == AnyKind
    ensures var cb := w.combinators[c];
      var w' := OnValueEffect(w, c, index, value);
      && w'.combinators == w.combinators
      && (w.promises[cb.target].state == Pending ==>
            w'.promises[cb.target].state == Fulfilled && w'.promises[cb.target].result == value)
      && (w.promises[cb.target].state != Pending ==> w' == w)
  {
  }

  /** `any`, rejection closure: it counts one more rejection whether or
      not the combined promise is still pending; a pending combined promise
      is rejected with the "No promises fulfilled." error exactly when the
      count reaches the input length, and a settled one stays as it is. */
  lemma AnyOnReason(w: World, c: CombinatorId, index: nat, reason: Value)
    requires ClosureOk(w, c, index) && w.combinators[c].kind == AnyKind
    ensures var cb := w.combinators[c];
      var w' := OnReasonEffect(w, c, index, reason);
      var pending := w.promises[cb.target].state == Pending;
      && w'.combinators == w.combinators[c := cb.(count := cb.count + 1)]
      && (forall q :: 0 <= q < |w.promises| && q != cb.target ==> w'.promises[q] == w.promises[q])
      && (pending ==> (w'.promises[cb.target].state == Rejected <==> cb.count + 1 == |cb.inputs|))
      && (pending && w'.promises[cb.target].state == Rejected ==> w'.promises[cb.target].result == NoneFulfilled)
      && (pending ==> w'.promises[cb.target].state != Fulfilled)
      && (!pending ==> w'.promises == w.promises && w'.queue == w.queue)
  {
  }

  /** `Promise.race` as written: any non-empty input makes its executor
      throw the ReferenceError, which rejects the promise at once; an
      empty input leaves it pending.  Nothing is subscribed either way. */
  lemma RaceAsWritten(w: World, inputs: seq<PromiseId>)
    ensures var (w', p) := Race(w, inputs);
      && p == |w.promises|
      && w'.promises == w.promises + [if |inputs| > 0 then PromiseRecord(Rejected, RaceError, []) else FreshRecord]
      && w'.queue == w.queue && w'.combinators == w.combinators
  {
  }
}
