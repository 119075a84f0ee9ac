/** The polyfill as the program runs it: one object holding every promise's
    fields, the microtask queue and the variables captured by the
    combinator calls, updated in place.  Each method is proved to perform
    exactly the step of the corresponding function of `Core`, `Chaining`,
    `Statics` or `Combinators`, and the methods that the program's users
    can call keep the invariant of `Invariant`, so the guarantees of
    `Theorems` hold in every state the object can reach. */
module Machine {
  import opened Types
  import Core
  import Aggregates
  import Chaining
  import Statics
  import Combinators
  import Wellformedness
  import Invariant
  import Preservation
  import ClosureSteps
  import Creation

  class Runtime {
    /** `PromiseState`, `PromiseResult` and `callbacks` of every promise. */
    var promises: seq<PromiseRecord>
    /** The microtasks handed to `queueMicrotask`, oldest first. */
    var queue: seq<Task>
    /** `count` and `values`/`results` of every combinator call. */
    var combinators: seq<Combinator>

    function Snapshot(): (r: World)
      reads this
    {
      World(promises, queue, combinators)
    }

    ghost predicate Valid()
      reads this
    {
      Invariant.Inv(Snapshot())
    }

    constructor ()
      ensures Valid() && Snapshot() == EmptyWorld
    {
      promises, queue, combinators := [], [], [];
    }

    /** The field initialisation of the `Promise` constructor. */
    method Allocate() returns (p: PromiseId)
      modifies this
      ensures (Snapshot(), p) == Core.Allocate(old(Snapshot()))
    {
      p := |promises|;
      promises := promises + [FreshRecord];
    }

    /** The inner `resolve`/`reject`: check, set state and result, then
        queue one task per callback with `callbacks.forEach`. */
    method Settle(p: PromiseId, st: PromiseState, v: Value)
      requires p < |promises| && st != Pending
      modifies this
      ensures Snapshot() == Core.Settle(old(Snapshot()), p, st, v)
    {
      var rec := promises[p];
      if rec.state != Pending {
        return;
      }
      promises := promises[p := rec.(state := st)];
      promises := promises[p := promises[p].(result := v)];
      var i := 0;
      while i < |rec.callbacks|
        invariant 0 <= i <= |rec.callbacks|
        invariant promises == old(promises)[p := PromiseRecord(st, v, rec.callbacks)]
        invariant combinators == old(combinators)
        invariant queue == old(queue) + Core.Dispatch(p, rec.callbacks[..i], st)
      {
        var cb := rec.callbacks[i];
        assert rec.callbacks[..i + 1][..i] == rec.callbacks[..i];
        queue := queue + [Task(p, Core.Branch(cb, st), cb.derived)];
        i := i + 1;
      }
      assert rec.callbacks[..i] == rec.callbacks;
    }

    /** A later call of a promise's `resolve`, handed out to its executor. */
    method Resolve(p: PromiseId, value: Value)
      requires Valid() && p < |promises| && RefOk(|promises|, value)
      requires Invariant.NotTarget(Snapshot(), p)
      modifies this
      ensures Valid() && Snapshot() == Core.Settle(old(Snapshot()), p, Fulfilled, value)
    {
      Preservation.SettleInv(Snapshot(), p, Fulfilled, value);
      Settle(p, Fulfilled, value);
    }

    /** A later call of a promise's `reject`, handed out to its executor. */
    method Reject(p: PromiseId, reason: Value)
      requires Valid() && p < |promises| && RefOk(|promises|, reason)
      requires Invariant.NotTarget(Snapshot(), p)
      modifies this
      ensures Valid() && Snapshot() == Core.Settle(old(Snapshot()), p, Rejected, reason)
    {
      Preservation.SettleInv(Snapshot(), p, Rejected, reason);
      Settle(p, Rejected, reason);
    }

    /** `new Promise(executor)`. */
    method NewPromise(ex: Core.Executor) returns (p: PromiseId)
      requires Valid() && Wellformedness.ExecutorOk(|promises|, ex)
      modifies this
      ensures Valid() && (Snapshot(), p) == Core.Construct(old(Snapshot()), ex)
    {
      Creation.ConstructInv(Snapshot(), ex);
      p := Allocate();
      ghost var start := Snapshot();
      var i := 0;
      while i < |ex.calls|
        invariant 0 <= i <= |ex.calls| && p < |promises|
        invariant Snapshot() == Core.RunCalls(start, p, ex.calls[..i])
      {
        assert ex.calls[..i + 1][..i] == ex.calls[..i];
        match ex.calls[i] {
          case CallResolve(v) => Settle(p, Fulfilled, v);
          case CallReject(v) => Settle(p, Rejected, v);
        }
        i := i + 1;
      }
      assert ex.calls[..i] == ex.calls;
      if ex.throws.Some? {
        Settle(p, Rejected, ex.throws.value);
      }
    }

    /** The body of `then` once the default handlers are in place: a new
        promise, and a queued task or a pushed callback pair. */
    method Register(p: PromiseId, onFulfilled: Option<Handler>, onRejected: Option<Handler>) returns (d: PromiseId)
      requires p < |promises|
      modifies this
      ensures (Snapshot(), d) == Chaining.Then(old(Snapshot()), p, onFulfilled, onRejected)
    {
      var f := Chaining.DefaultFulfilled(onFulfilled);
      var g := Chaining.DefaultRejected(onRejected);
      d := Allocate();
      var rec := promises[p];
      if rec.state == Fulfilled {
        queue := queue + [Task(p, f, d)];
      } else if rec.state == Rejected {
        queue := queue + [Task(p, g, d)];
      } else {
        promises := promises[p := rec.(callbacks := rec.callbacks + [Callback(f, g, d)])];
      }
    }

    /** `p.then(onFulfilled, onRejected)`. */
    method Then(p: PromiseId, onFulfilled: Option<Handler>, onRejected: Option<Handler>) returns (d: PromiseId)
      requires Valid() && p < |promises|
      requires Preservation.OptionalOrdinary(Snapshot(), onFulfilled)
      requires Preservation.OptionalOrdinary(Snapshot(), onRejected)
      modifies this
      ensures Valid() && (Snapshot(), d) == Chaining.Then(old(Snapshot()), p, onFulfilled, onRejected)
    {
      Preservation.ThenInv(Snapshot(), p, onFulfilled, onRejected);
      d := Register(p, onFulfilled, onRejected);
    }

    /** `p.catch(onRejected)`. */
    method Catch(p: PromiseId, onRejected: Option<Handler>) returns (d: PromiseId)
      requires Valid() && p < |promises| && Preservation.OptionalOrdinary(Snapshot(), onRejected)
      modifies this
      ensures Valid() && (Snapshot(), d) == Chaining.Catch(old(Snapshot()), p, onRejected)
    {
      d := Then(p, None, onRejected);
    }

    /** The fulfilment closure of input `index` of combinator call `c`. */
    method RunOnValue(c: CombinatorId, index: nat, value: Value)
      requires Aggregates.ClosureOk(Snapshot(), c, index)
      modifies this
      ensures Snapshot() == Aggregates.OnValueEffect(old(Snapshot()), c, index, value)
    {
      var cb := combinators[c];
      match cb.kind
      case AllKind =>
        combinators := combinators[c := combinators[c].(count := combinators[c].count + 1)];
        combinators := combinators[c := combinators[c].(slots := combinators[c].slots[index := Some(value)])];
        if combinators[c].count == |cb.inputs| {
          Settle(cb.target, Fulfilled, List(Aggregates.Dense(combinators[c].slots)));
        }
      case AllSettledKind =>
        combinators := combinators[c := combinators[c].(slots := combinators[c].slots[index := Some(StatusRecord("fulfilled", value))])];
        combinators := combinators[c := combinators[c].(count := combinators[c].count + 1)];
        if combinators[c].count == |cb.inputs| {
          Settle(cb.target, Fulfilled, List(Aggregates.Dense(combinators[c].slots)));
        }
      case AnyKind =>
        Settle(cb.target, Fulfilled, value);
    }

    /** The rejection closure of input `index` of combinator call `c`. */
    method RunOnReason(c: CombinatorId, index: nat, reason: Value)
      requires Aggregates.ClosureOk(Snapshot(), c, index)
      modifies this
      ensures Snapshot() == Aggregates.OnReasonEffect(old(Snapshot()), c, index, reason)
    {
      var cb := combinators[c];
      match cb.kind
      case AllKind =>
        Settle(cb.target, Rejected, reason);
      case AllSettledKind =>
        combinators := combinators[c := combinators[c].(slots := combinators[c].slots[index := Some(StatusRecord("rejected", reason))])];
        combinators := combinators[c := combinators[c].(count := combinators[c].count + 1)];
        if combinators[c].count == |cb.inputs| {
          Settle(cb.target, Fulfilled, List(Aggregates.Dense(combinators[c].slots)));
        }
      case AnyKind =>
        combinators := combinators[c := combinators[c].(count := combinators[c].count + 1)];
        if combinators[c].count == |cb.inputs| {
          Settle(cb.target, Rejected, Aggregates.NoneFulfilled);
        }
    }

    /** Calling a handler with `arg`. */
    method Invoke(h: Handler, arg: Value) returns (out: Completion)
      requires Chaining.Callable(Snapshot(), h)
      modifies this
      ensures (Snapshot(), out) == Chaining.Invoke(old(Snapshot()), h, arg)
    {
      match h
      case Identity => out := Normal(arg);
      case Rethrow => out := Thrown(arg);
      case Return(v) => out := Normal(v);
      case Throw(e) => out := Thrown(e);
      case ResolveOf(p) =>
        Settle(p, Fulfilled, arg);
        out := Normal(Undefined);
      case RejectOf(p) =>
        Settle(p, Rejected, arg);
        out := Normal(Undefined);
      case OnValue(c, i) =>
        RunOnValue(c, i, arg);
        out := Normal(Undefined);
      case OnReason(c, i) =>
        RunOnReason(c, i, arg);
        out := Normal(Undefined);
    }

    /** `executeCallback(h)` of the promise `d` returned by `source.then`. */
    method ExecuteCallback(source: PromiseId, h: Handler, d: PromiseId)
      requires source < |promises| && d < |promises|
      requires Chaining.Callable(Snapshot(), h) && RefOk(|promises|, promises[source].result)
      modifies this
      ensures Snapshot() == Chaining.ExecuteCallback(old(Snapshot()), source, h, d)
    {
      var out := Invoke(h, promises[source].result);
      match out
      case Thrown(e) =>
        Settle(d, Rejected, e);
      case Normal(v) =>
        if v.Ref? {
          var _ := Register(v.id, Some(ResolveOf(d)), Some(RejectOf(d)));
        } else {
          Settle(d, Fulfilled, v);
        }
    }

    /** One turn of the host's microtask loop; `ran` tells whether a task
        was waiting. */
    method Step() returns (ran: bool)
      requires Valid()
      modifies this
      ensures Valid() && Snapshot() == Chaining.Step(old(Snapshot()))
      ensures ran == (old(queue) != [])
    {
      ClosureSteps.StepInv(Snapshot());
      ran := queue != [];
      if ran {
        var t := queue[0];
        assert TaskOk(Snapshot(), t);
        assert t.handler.OnValue? || t.handler.OnReason? ==> CombinatorOk(|promises|, combinators[t.handler.c]);
        assert RecordOk(Snapshot(), promises[t.source]);
        queue := queue[1..];
        ExecuteCallback(t.source, t.handler, t.derived);
      }
    }

    /** `Promise.resolve(value)`. */
    method PromiseResolve(value: Value) returns (p: PromiseId)
      requires Valid() && RefOk(|promises|, value)
      modifies this
      ensures Valid() && (Snapshot(), p) == Statics.PromiseResolve(old(Snapshot()), value)
    {
      Creation.PromiseResolveInv(Snapshot(), value);
      p := Allocate();
      if value.Ref? {
        var _ := Register(value.id, Some(ResolveOf(p)), Some(RejectOf(p)));
      } else {
        Settle(p, Fulfilled, value);
      }
    }

    /** `Promise.reject(reason)`. */
    method PromiseReject(reason: Value) returns (p: PromiseId)
      requires Valid() && RefOk(|promises|, reason)
      modifies this
      ensures Valid() && (Snapshot(), p) == Statics.PromiseReject(old(Snapshot()), reason)
    {
      Creation.PromiseRejectInv(Snapshot(), reason);
      p := Allocate();
      Settle(p, Rejected, reason);
    }

    /** The shared body of `all`, `allSettled` and `any`. */
    method Start(kind: Kind, inputs: seq<PromiseId>) returns (p: PromiseId)
      requires Combinators.InputsOk(Snapshot(), inputs)
      modifies this
      ensures (Snapshot(), p) == Combinators.Start(old(Snapshot()), kind, inputs)
    {
      var c := |combinators|;
      var slots := Combinators.InitialSlots(kind, |inputs|);
      p := Allocate();
      combinators := combinators + [Combinator(kind, p, inputs, 0, slots)];
      ghost var start := Snapshot();
      var i := 0;
      while i < |inputs|
        invariant 0 <= i <= |inputs|
        invariant Snapshot() == Combinators.Subscribe(start, c, inputs, i)
      {
        var _ := Register(inputs[i], Some(OnValue(c, i)), Some(OnReason(c, i)));
        i := i + 1;
      }
    }

    /** `Promise.all(inputs)`. */
    method All(inputs: seq<PromiseId>) returns (p: PromiseId)
      requires Valid() && Combinators.InputsOk(Snapshot(), inputs)
      modifies this
      ensures Valid() && (Snapshot(), p) == Combinators.All(old(Snapshot()), inputs)
    {
      Creation.StartInv(Snapshot(), AllKind, inputs);
      p := Start(AllKind, inputs);
    }

    /** `Promise.allSettled(inputs)`. */
    method AllSettled(inputs: seq<PromiseId>) returns (p: PromiseId)
      requires Valid() && Combinators.InputsOk(Snapshot(), inputs)
      modifies this
      ensures Valid() && (Snapshot(), p) == Combinators.AllSettled(old(Snapshot()), inputs)
    {
      Creation.StartInv(Snapshot(), AllSettledKind, inputs);
      p := Start(AllSettledKind, inputs);
    }

    /** `Promise.any(inputs)`. */
    method Any(inputs: seq<PromiseId>) returns (p: PromiseId)
      requires Valid() && Combinators.InputsOk(Snapshot(), inputs)
      modifies this
      ensures Valid() && (Snapshot(), p) == Combinators.Any(old(Snapshot()), inputs)
    {
      Creation.StartInv(Snapshot(), AnyKind, inputs);
      p := Start(AnyKind, inputs);
    }

    /** `Promise.race(inputs)` as written. */
    method Race(inputs: seq<PromiseId>) returns (p: PromiseId)
      requires Valid()
      modifies this
      ensures Valid() && (Snapshot(), p) == Combinators.Race(old(Snapshot()), inputs)
    {
      Creation.RaceInv(Snapshot(), inputs);
      p := Allocate();
      if |inputs| > 0 {
        Settle(p, Rejected, Combinators.RaceError);
      }
    }
  }
}
