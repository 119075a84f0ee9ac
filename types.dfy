/** The data model of the promise polyfill: promise records, the JavaScript
    values they carry, the handlers that `then` registers, the microtask
    queue and the per-call state of the counting combinators.

    The whole JavaScript heap that these objects live in is one `World`
    value.  Promises are addressed by their index in `World.promises`, so a
    JavaScript reference to a `Promise` object is a `PromiseId`. */
module Types {

  type PromiseId = nat
  type CombinatorId = nat

  datatype Option<T> = None | Some(value: T)

  /** `PromiseState`: 'pending', 'fulfilled' or 'rejected'. */
  datatype PromiseState = Pending | Fulfilled | Rejected

  /** The JavaScript values that flow through promises.  Only the
      distinction the code looks at (`instanceof Promise`) is essential;
      the rest are opaque data.  `StatusRecord` is the `{status, value}`
      object built by `allSettled`, `Error` an `Error` object. */
  datatype Value =
    | Undefined
    | Num(n: int)
    | Str(s: string)
    | Ref(id: PromiseId)
    | List(items: seq<Value>)
    | StatusRecord(status: string, value: Value)
    | Error(name: string, message: string)

  /** How a JavaScript function call ended: it returned a value or threw. */
  datatype Completion = Normal(v: Value) | Thrown(v: Value)

  /** The functions a promise can call back.  `Identity` and `Rethrow` are
      the defaults `then` installs for a missing handler; `Return` and
      `Throw` stand for user handlers (a returned `Ref` is a returned
      promise); `ResolveOf`/`RejectOf` are the settlement functions of a
      promise passed as handlers; `OnValue`/`OnReason` are the two closures
      that `all`, `allSettled` and `any` register for input `index` of the
      combinator call `c`. */
  datatype Handler =
    | Identity
    | Rethrow
    | Return(v: Value)
    | Throw(e: Value)
    | ResolveOf(p: PromiseId)
    | RejectOf(p: PromiseId)
    | OnValue(c: CombinatorId, index: nat)
    | OnReason(c: CombinatorId, index: nat)

  /** One `{onFulfilled, onRejected}` pair pushed onto `callbacks` by `then`;
      `derived` is the promise that `then` returned. */
  datatype Callback = Callback(onFulfilled: Handler, onRejected: Handler, derived: PromiseId)

  /** The three fields of a `Promise` object. */
  datatype PromiseRecord = PromiseRecord(state: PromiseState, result: Value, callbacks: seq<Callback>)

  /** A queued microtask: run `executeCallback(handler)` for the promise
      `derived` against the result of the promise `source`. */
  datatype Task = Task(source: PromiseId, handler: Handler, derived: PromiseId)

  datatype Kind = AllKind | AllSettledKind | AnyKind

  /** The variables captured by one call of `all`, `allSettled` or `any`:
      the input array, `count`, the `values`/`results` array (holes are
      `None`; `any` keeps no array) and the promise it returned. */
  datatype Combinator = Combinator(kind: Kind, target: PromiseId, inputs: seq<PromiseId>, count: nat, slots: seq<Option<Value>>)

  datatype World = World(promises: seq<PromiseRecord>, queue: seq<Task>, combinators: seq<Combinator>)

  /** A freshly constructed promise, before its executor runs. */
  const FreshRecord := PromiseRecord(Pending, Undefined, [])

  const EmptyWorld := World([], [], [])

  // ---------------------------------------------------------------------
  // Well-formedness: every reference in the world names an existing object

  predicate RefOk(n: nat, v: Value) {
    v.Ref? ==> v.id < n
  }

  predicate HandlerOk(w: World, h: Handler) {
    match h
    case Return(v) => RefOk(|w.promises|, v)
    case Throw(e) => RefOk(|w.promises|, e)
    case ResolveOf(p) => p < |w.promises|
    case RejectOf(p) => p < |w.promises|
    case OnValue(c, i) => c < |w.combinators| && i < |w.combinators[c].inputs|
    case OnReason(c, i) => c < |w.combinators| && i < |w.combinators[c].inputs|
    case _ => true
  }

  predicate CallbackOk(w: World, cb: Callback) {
    HandlerOk(w, cb.onFulfilled) && HandlerOk(w, cb.onRejected) && cb.derived < |w.promises|
  }

  predicate RecordOk(w: World, rec: PromiseRecord) {
    && RefOk(|w.promises|, rec.result)
    && forall k :: 0 <= k < |rec.callbacks| ==> CallbackOk(w, rec.callbacks[k])
  }

  predicate TaskOk(w: World, t: Task) {
    t.source < |w.promises| && t.derived < |w.promises| && HandlerOk(w, t.handler)
  }

  predicate CombinatorOk(n: nat, cb: Combinator) {
    && cb.target < n
    && (forall k :: 0 <= k < |cb.inputs| ==> cb.inputs[k] < n)
    && (if cb.kind == AnyKind then cb.slots == [] else |cb.slots| == |cb.inputs|)
  }

  predicate WellFormed(w: World) {
    && (forall p :: 0 <= p < |w.promises| ==> RecordOk(w, w.promises[p]))
    && (forall k :: 0 <= k < |w.queue| ==> TaskOk(w, w.queue[k]))
    && (forall c :: 0 <= c < |w.combinators| ==> CombinatorOk(|w.promises|, w.combinators[c]))
  }
}
