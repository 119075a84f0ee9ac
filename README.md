# A verified model of a JavaScript Promise polyfill

`promise.js` is a small, self-contained `Promise` implementation. It has:

- a constructor with private `resolve` and `reject` functions;
- `then` and `catch`;
- the static `Promise.resolve` and `Promise.reject`;
- the combinators `all`, `allSettled`, `race` and `any`.

Its continuations run on the host's microtask queue through `queueMicrotask`.

This project models that code in Dafny and proves what the code guarantees.

## The model

### The heap and its entities

The whole JavaScript heap the polyfill touches is one `World`, defined in `types.dfy`. It holds three things:

- **Promise records.** Each record has `PromiseState`, `PromiseResult` and `callbacks`. A promise is addressed by its index, so a reference to a promise is a `Ref(id)` value.
- **The microtask queue.** It is an explicit FIFO sequence of `Task(source, handler, derived)`. Every `queueMicrotask(() => executeCallback(h))` of the source becomes one task. The task runs `h` against `source`'s result, on behalf of the promise `derived` that `then` returned.
- **The captured variables of each combinator call.** These are the input array, `count`, the `values`/`results` array and the promise the call returned.

### Functions

JavaScript functions that a promise can call back are the `Handler` datatype:

- the two defaults `then` installs (identity and rethrow);
- user handlers that return or throw a value;
- a promise's own `resolve`/`reject`;
- the two closures a combinator call registers for each input index.

Each step of the source is a function on `World`:

- `Core`: allocation, the inner `resolve`/`reject`, and the constructor.
- `Chaining`: `then`, `executeCallback`, `catch`, and one turn of the queue.
- `Statics`: `Promise.resolve` and `Promise.reject`.
- `Aggregates` and `Combinators`: the combinators and their closures.

### The imperative runtime

`Machine.Runtime` is the imperative form of the same program. It is a class whose fields are the promises, the queue and the combinator state, and its methods update them in place.

- `Runtime.Settle` walks `callbacks` with a loop, as `callbacks.forEach` does.
- `Runtime.Start` subscribes to the inputs with a loop, as the combinators' `forEach` does.
- Each method is proved to perform exactly the step of the corresponding function.

### The invariant

`Invariant.Inv` holds in the empty heap and is preserved by every method users can call, and by every turn of the queue. The preservation proofs are in `Preservation`, `Creation` and `ClosureSteps`. The invariant states:

- **Well-formedness.** Every reference names an existing object.
- **Uniqueness.** The closure pair of each input index of a combinator call is waiting at most once, as a registered callback or as a queued task. It is waiting exactly once while its input is pending.
- **Per-kind invariants.** For `all` and `allSettled`, `count` is the number of written array slots, and each written slot holds its input's outcome. For `any`, `count` is the number of inputs whose rejection closure has run. In every case, the combined promise is settled only in the way the kind allows.

### The theorems

`Theorems` derives what `all`, `allSettled` and `any` promise from the invariant:

- **`all`** fulfils only when every input is fulfilled, with their values in input order. It rejects only with a rejected input's reason.
- **`allSettled`** never rejects. It fulfils only once every input is settled, with their records in order.
- **`any`** fulfils only with a fulfilled input's value. It rejects only when every one of at least one input is rejected.
- **Empty input.** None of the three ever settles on an empty input.
- **Full array.** Once the count of `all` or `allSettled` reaches the input length, the array it resolves with holds every input's value or record at that input's index.

### Where this code differs from the ECMAScript `Promise` combinators

The model follows the code in each of these cases:

- **Empty input.** An empty input array never settles `all`, `allSettled` or `any`. Their `resolve`/`reject` is only reached from inside a per-input closure.
- **`allSettled` rejections.** The record of a rejected input keeps the reason under the key `value` (`{status: 'rejected', value: reason}`).
- **`any` rejection value.** `any` rejects with `new Error('No promises fulfilled.')`, not with an aggregate error.
- **`race`.** `race` reads the undeclared variable `promise` on its first iteration. Given any input, it therefore rejects at once with a `ReferenceError`. Given none, it stays pending.
- **Unwrapping.** The inner `resolve` never unwraps a promise value. Only `then` (a handler that returns a promise) and `Promise.resolve` adopt another promise.

## Model

| member | source | states |
|---|---|---|
| Core.Allocate | promise.js:3-5 | the allocation step of `new Promise` returns the next id and adds exactly one record (that record is pending with no result and no callbacks, and nothing else changes: `CoreProofs.AllocateFresh`) |
| Core.Dispatch | promise.js:12-27 | settling queues exactly as many tasks as there are registered callbacks (their order and contents are `CoreProofs.DispatchSpec`) |
| Core.Settle | promise.js:8-28 | after `resolve`/`reject` the promise is no longer pending and keeps its callbacks; a pending promise takes exactly the given state and result; the number of promises and the combinator state are unchanged |
| Core.RunCalls | promise.js:30-31 | the executor's synchronous calls create no promise and touch no combinator state |
| Core.Construct | promise.js:2-35 | `new Promise(executor)` returns the next id, adds exactly one promise, and an executor that throws leaves its promise settled |
| Chaining.DefaultFulfilled | promise.js:39-39 | the `onFulfilled` default `value => value` (what it does is `ChainingProofs.DefaultHandlers`, `ChainingProofs.ThenDefers` and `ChainingProofs.DefaultsPassThrough`) |
| Chaining.DefaultRejected | promise.js:40-40 | the `onRejected` default `reason => { throw reason }` (what it does is `ChainingProofs.DefaultHandlers`, `ChainingProofs.ThenDefers` and `ChainingProofs.DefaultsPassThrough`) |
| Chaining.Then | promise.js:37-61 | `then` returns a fresh id, adds exactly one promise and leaves the combinator state alone (the full effect is `ChainingProofs.ThenDefers`) |
| Chaining.Catch | promise.js:63-65 | `catch`, with its handler present or missing, returns a fresh id and adds exactly one promise (its outcome is `ChainingProofs.CatchOutcome`) |
| Chaining.Invoke | promise.js:45-45 | calling a handler creates no promise and no combinator call, and its outcome refers only to existing promises |
| Chaining.ExecuteCallback | promise.js:43-51 | `executeCallback` adds at most the one promise of an adopting `then`, and the derived promise is settled afterwards unless the handler returned a promise |
| Chaining.Step | promise.js:52-53 | a turn on an empty queue changes nothing; on a non-empty queue the tasks behind the oldest stay queued, in order, ahead of every task the turn adds (first in, first out); a turn never removes promises or combinator calls (which task runs: `ChainingProofs.StepRunsOldest`) |
| Chaining.SettleAppends | promise.js:12-27 | `resolve`/`reject` only append microtasks: the old queue is a prefix of the new one |
| Chaining.InvokeAppends | promise.js:45-45 | calling any handler, the settlement functions and combinator closures included, only appends to the queue |
| Chaining.ExecuteCallbackAppends | promise.js:43-51 | running `executeCallback` keeps the queue it found as a prefix of the queue it leaves |
| Statics.PromiseResolve | promise.js:67-72 | `Promise.resolve` returns a new promise that is pending exactly when the value is a promise (to be adopted) and is otherwise settled at once |
| Statics.PromiseReject | promise.js:74-78 | `Promise.reject(r)` returns a new promise already rejected with `r` |
| Combinators.InitialSlots | promise.js:81-81 | the empty `values`/`results` array of a new call, one unwritten slot per input; `any` keeps none (its shape is part of `CombinatorProofs.StartFacts`) |
| Combinators.Recorded | promise.js:81-83 | a combinator call's variables `values`/`results`, `count = 0` and its new promise, before the `forEach` (its effect is part of `CombinatorProofs.StartFacts`) |
| Combinators.Subscribe | promise.js:84-92 | the `forEach` over `k` inputs adds exactly `k` promises (the ones `then` returns) and leaves the combinator state alone |
| Combinators.Start | promise.js:80-94 | a combinator call adds its promise plus one per input, and records a new call of its kind with that promise, these inputs and `count = 0`, keeping all earlier calls |
| Combinators.All | promise.js:80-94 | `all` records a new call of kind `all` for the returned promise and its inputs |
| Combinators.AllSettled | promise.js:96-112 | `allSettled` records a new call of kind `allSettled` for the returned promise and its inputs |
| Combinators.Any | promise.js:126-138 | `any` records a new call of kind `any` for the returned promise and its inputs |
| Combinators.Race | promise.js:114-124 | `race` adds one promise, queues nothing, records no call, and its promise is rejected exactly when the input is non-empty |
| Aggregates.OnValueEffect | promise.js:85-88 | a fulfilment closure of `all`/`allSettled` increments `count`, and one of `any` leaves the combined promise settled; no promise or call is created |
| Aggregates.OnReasonEffect | promise.js:89-91 | a rejection closure of `all` leaves the combined promise settled, and one of `allSettled`/`any` increments `count`; no promise or call is created |
| CoreProofs.AllocateFresh | promise.js:3-5 | `new Promise` allocates exactly one record, at id `|w.promises|`, pending with result `undefined` and no callbacks; every older promise, the queue and the combinator calls are unchanged |
| CoreProofs.DispatchSpec | promise.js:12-27 | settling queues exactly one task per registered callback, the k-th task running the matching branch of the k-th callback for that callback's derived promise |
| CoreProofs.SettleOnce | promise.js:9-9 | `resolve`/`reject` of a promise that is no longer pending changes nothing and queues nothing |
| CoreProofs.SettleDispatch | promise.js:8-28 | settling a pending promise sets exactly its state and result, keeps its callbacks, leaves every other promise and the combinator state untouched, and appends the callbacks' tasks in registration order after the existing queue |
| CoreProofs.RunCallsFirstWins | promise.js:30-31 | of several synchronous `resolve`/`reject` calls by the executor, the first one decides the promise |
| CoreProofs.ConstructOutcome | promise.js:2-35 | `new Promise(executor)` yields a fresh promise at the next id, pending when the executor neither calls nor throws, otherwise settled by the first call (a throw counting as a final `reject(err)`); nothing is queued and no other promise changes |
| CoreProofs.ExecutorThrow | promise.js:30-34 | a throw after the executor already called `resolve`/`reject` leaves no trace; a throw before any call rejects the promise with the thrown value |
| ChainingProofs.DefaultHandlers | promise.js:39-40 | the default fulfilment handler returns its argument and the default rejection handler throws it, both without touching the world; a handler that is given is used as it is |
| ChainingProofs.StepRunsOldest | promise.js:52-53 | a turn on the queue `[t] + rest` runs `executeCallback` of the oldest task `t` on the world with `rest` queued, and `rest` stays ahead of everything it adds |
| ChainingProofs.ThenDefers | promise.js:37-61 | `then` runs no handler: it adds one fresh pending promise and either queues exactly one task with the matching (defaulted) handler for a settled promise or appends exactly one callback pair to a pending one; the receiver's state and result and every other promise are unchanged |
| ChainingProofs.HandlerOutcome | promise.js:43-51 | the derived promise is rejected with a thrown value, fulfilled with a non-promise return value, and for a returned promise `q` stays pending while `then(resolve, reject)` is registered on `q` (as a callback or a queued task, by `q`'s state) |
| ChainingProofs.AdoptionCompletes | promise.js:46-46 | when the adopted promise `q` hands its outcome to the derived promise's `resolve`/`reject`, the derived promise takes exactly `q`'s state and result |
| ChainingProofs.DefaultsPassThrough | promise.js:39-40 | with both handlers missing, on an idle queue and for a promise settled with a non-promise value or reason, one turn of the queue passes that outcome through to the derived promise unchanged (a promise value would be adopted instead, promise.js:46) |
| ChainingProofs.CatchOutcome | promise.js:63-65 | on an idle queue and for a promise settled with a non-promise, after one turn `catch(h)` passes a fulfilment through untouched; on a rejection a missing `h` rethrows the reason, an `h` returning a non-promise fulfils with that value, and a throwing `h` rejects with the thrown value |
| ChainingProofs.PromiseRejectImmediate | promise.js:74-78 | `Promise.reject(r)` adds exactly one promise, already rejected with `r` even when `r` is a promise, and queues nothing |
| ChainingProofs.PromiseResolveImmediate | promise.js:67-72 | `Promise.resolve(v)` of a non-promise adds exactly one promise, already fulfilled with `v`, and queues nothing |
| ChainingProofs.PromiseResolveAdoptsSettled | promise.js:67-72 | `Promise.resolve(q)` of a settled `q` is pending at first and carries `q`'s state and result after one turn of an otherwise idle queue |
| ChainingProofs.PromiseResolveQueuesAdoption | promise.js:67-72 | `Promise.resolve(q)` of any pending `q` adds one callback pair with the new promise's `resolve`/`reject` after `q`'s earlier callbacks; once `q` settles the new promise is still pending and the adoption task is queued after the existing queue and after the tasks of `q`'s earlier callbacks |
| ChainingProofs.PromiseResolveAdoptsPending | promise.js:67-72 | for a pending `q` with no callbacks of its own, on an idle queue: `Promise.resolve(q)` stays pending, and once `q` settles and one turn of the queue runs it carries `q`'s state and result |
| CombinatorProofs.SubscribeExtends | promise.js:84-92 | the `forEach` of `then` calls keeps every promise's state and result, keeps old callbacks and tasks in place, creates only fresh pending promises and leaves non-input promises untouched |
| CombinatorProofs.SubscribeRegisters | promise.js:84-92 | after the `forEach`, every input `j` that was pending carries the closure pair of index `j` |
| CombinatorProofs.SubscribeQueues | promise.js:84-92 | after the `forEach`, every input `j` that was settled has the matching closure of index `j` queued |
| CombinatorProofs.StartFacts | promise.js:80-94 | a combinator call returns a fresh pending promise, records `count = 0` with an unwritten array, settles nothing, and subscribes closure pair `j` to input `j` (registered or queued according to the input's state) |
| CombinatorProofs.EmptyInputNoClosure | promise.js:84-84 | with an empty input array the returned promise is pending, nothing is queued and no closure of the call can exist |
| CombinatorProofs.AllOnValue | promise.js:85-88 | `all`'s fulfilment closure always writes `values[index]` and counts once, even after the combined promise has settled; a pending combined promise is fulfilled with the array exactly when the count reaches the input length and never rejected by it, a settled one stays as it is, and no other promise changes |
| CombinatorProofs.AllOnReason | promise.js:89-91 | `all`'s rejection closure rejects a pending combined promise with the reason, leaves a settled one and the whole world as they are, and records nothing |
| CombinatorProofs.AllSettledRecords | promise.js:101-109 | both `allSettled` closures store `{status, value}` at their own index and count once; the combined promise is never rejected by them and is fulfilled with the array exactly when the count reaches the input length |
| CombinatorProofs.AnyOnValue | promise.js:130-131 | `any`'s fulfilment closure fulfils a pending combined promise with its value, and changes nothing once the combined promise is settled |
| CombinatorProofs.AnyOnReason | promise.js:132-135 | `any`'s rejection closure always counts once, even after the combined promise has settled; a pending combined promise is rejected with `Error('No promises fulfilled.')` exactly when the count reaches the input length and never fulfilled by it, and a settled one stays as it is |
| CombinatorProofs.RaceAsWritten | promise.js:114-124 | `race` on any non-empty input is rejected at once with the `ReferenceError` its executor throws, on an empty input stays pending, and subscribes to nothing |
| Theorems.AllOutcome | promise.js:80-94 | in every reachable state, `all`'s promise is fulfilled only if there is an input and every input is fulfilled, with their results in input order, and rejected only with the reason of a rejected input |
| Theorems.AllSettledOutcome | promise.js:96-112 | in every reachable state, `allSettled`'s promise is never rejected and is fulfilled only if there is an input and every input is settled, with their `{status, value}` records in input order |
| Theorems.AnyOutcome | promise.js:126-138 | in every reachable state, `any`'s promise is fulfilled only with the value of a fulfilled input, and rejected only if there is an input and every input is rejected, with `Error('No promises fulfilled.')` |
| Theorems.FullArray | promise.js:86-88 | in every reachable state, once an `all` or `allSettled` call's `count` reaches the input length every index is written and the array it resolves with is, in input order, the inputs' values (all of them fulfilled) or their `{status, value}` records (all of them settled) |
| Theorems.EmptyInputNeverSettles | promise.js:84-92 | in every reachable state, an `all`, `allSettled` or `any` call with an empty input array is still pending |
| Theorems.CountBound | promise.js:86-86 | in every reachable state, a call's `count` never exceeds its input length |
| Theorems.InputWaitsOnce | promise.js:52-59 | in every reachable state, each input's closure pair waits (registered or queued) at most once, and exactly once while the input is pending |
| Preservation.SettleInv | promise.js:8-28 | settling any promise that is not a combinator's own result keeps the invariant |
| Preservation.ThenInv | promise.js:37-61 | `then` with handlers a program can pass keeps the invariant |
| Preservation.ExecuteCallbackInv | promise.js:43-51 | running `executeCallback` with an ordinary handler keeps the invariant, whether the handler returns a value, returns a promise or throws |
| ClosureSteps.StepInv | promise.js:52-59 | one turn of the microtask queue keeps the invariant, whichever handler the oldest task holds, including the six combinator closures |
| Creation.ConstructInv | promise.js:2-35 | `new Promise(executor)` keeps the invariant |
| Creation.PromiseResolveInv | promise.js:67-72 | `Promise.resolve` keeps the invariant |
| Creation.PromiseRejectInv | promise.js:74-78 | `Promise.reject` keeps the invariant |
| Creation.RaceInv | promise.js:114-124 | `race` keeps the invariant |
| Creation.StartInv | promise.js:80-94 | a call of `all`, `allSettled` or `any` keeps the invariant, including the new call's own part of it |
| Machine.Runtime.Allocate | promise.js:3-5 | appends a fresh pending promise with no result and no callbacks and returns its id |
| Machine.Runtime.Settle | promise.js:8-28 | the in-place `resolve`/`reject`, whose `forEach` loop queues one task per callback, performs exactly `Core.Settle` |
| Machine.Runtime.Resolve | promise.js:8-17 | a later call of a promise's `resolve` performs `Core.Settle` with the value and keeps the invariant |
| Machine.Runtime.Reject | promise.js:19-28 | a later call of a promise's `reject` performs `Core.Settle` with the reason and keeps the invariant |
| Machine.Runtime.NewPromise | promise.js:2-35 | the constructor, running the executor's calls in a loop and rejecting on a throw, performs exactly `Core.Construct` and keeps the invariant |
| Machine.Runtime.Register | promise.js:52-59 | queues a task or pushes a callback pair exactly as `Chaining.Then` |
| Machine.Runtime.Then | promise.js:37-61 | `then` performs exactly `Chaining.Then` and keeps the invariant |
| Machine.Runtime.Catch | promise.js:63-65 | `catch`, with its handler present or missing, performs exactly `Chaining.Catch` and keeps the invariant |
| Machine.Runtime.RunOnValue | promise.js:85-88 | the in-place fulfilment closure of any combinator kind performs exactly `Aggregates.OnValueEffect` |
| Machine.Runtime.RunOnReason | promise.js:89-91 | the in-place rejection closure of any combinator kind performs exactly `Aggregates.OnReasonEffect` |
| Machine.Runtime.Invoke | promise.js:45-45 | calling a handler performs exactly `Chaining.Invoke` |
| Machine.Runtime.ExecuteCallback | promise.js:43-51 | `executeCallback` performs exactly `Chaining.ExecuteCallback` |
| Machine.Runtime.Step | promise.js:52-53 | one turn of the queue performs exactly `Chaining.Step` (so it runs the oldest task and keeps the rest first in, first out, by `ChainingProofs.StepRunsOldest`), keeps the invariant, and reports whether a task was waiting |
| Machine.Runtime.PromiseResolve | promise.js:67-72 | performs exactly `Statics.PromiseResolve` and keeps the invariant |
| Machine.Runtime.PromiseReject | promise.js:74-78 | performs exactly `Statics.PromiseReject` and keeps the invariant |
| Machine.Runtime.Start | promise.js:83-92 | the shared combinator body, subscribing to the inputs in a loop, performs exactly `Combinators.Start` |
| Machine.Runtime.All | promise.js:80-94 | performs exactly `Combinators.All` and keeps the invariant |
| Machine.Runtime.AllSettled | promise.js:96-112 | performs exactly `Combinators.AllSettled` and keeps the invariant |
| Machine.Runtime.Any | promise.js:126-138 | performs exactly `Combinators.Any` and keeps the invariant |
| Machine.Runtime.Race | promise.js:114-124 | performs exactly `Combinators.Race` and keeps the invariant |

## Left out

- **The wrapper.** The immediately-invoked wrapper and the assignment `window.Promise = Promise` (promise.js:1, 140-141) are not modelled: they only publish the constructor.
- **The host's event loop.** `queueMicrotask` is the explicit queue; `Step` runs one task. When the host runs the queue relative to other work is not modelled.
- **JavaScript functions are not real closures.** A user handler is a value that returns or throws a fixed value. A handler that itself calls `then`, creates promises or settles other promises is not modelled. The exception is passing a promise's own `resolve`/`reject` as a handler.
- **`typeof onFulfilled === 'function'`.** This test is modelled as present (`Some`) or absent (`None`), for `then` and for `catch`. A non-function argument counts as absent.
- **Executors.** An executor is the list of `resolve`/`reject` calls it makes synchronously, plus an optional throw. Its later asynchronous calls are `Runtime.Resolve`/`Runtime.Reject`.
- **Private resolvers.** `Runtime.Resolve` and `Runtime.Reject` require that the promise is not a combinator's result. Also, `Runtime.Then`/`Runtime.Catch` only accept handlers other than the combinators' closures and other than a combinator result's `resolve`/`reject`. In the source those functions are private to the combinators' executors, so a program cannot pass them.
- **Combinator inputs must be promises.** Inputs to `all`, `allSettled` and `any` are ids of existing promises (`InputsOk`). An element without a `then` method makes `promise.then` throw a `TypeError` inside the executor, which rejects the combined promise; that case is not modelled. A thenable element that is not a promise is called like one without an error, and is not modelled either. The same goes for a non-array argument.
- **The input array is copied at call time.** A combinator call stores its inputs as a sequence (`cb.inputs`), and its closures compare `count` with that sequence's length. The closures of promise.js:88, 104, 108 and 134 read the caller's live `promises.length` each time they run. So a change to the caller's array after the call is not modelled: after `a = [p]; Promise.all(a); a.push(q)`, the source never resolves, while the model resolves with `[value of p]`. Holes are not modelled either: `forEach` (promise.js:84, 100, 129) skips them, but they still count toward `length`, so `Promise.all([p, , q])` never resolves in the source and cannot be written as an input here.
- **Array aliasing.** The arrays `values`/`results` are resolved as a copy (`List(Dense(slots))`) rather than as an aliased JavaScript array. The invariant shows that every closure of the call has run by then, so no later write could be observed. Unwritten holes would read as `undefined`.
- **Number width.** `count` is an unbounded natural. The invariant bounds it by the input length, so JavaScript's number range is never reached.
- **`race`.** Only the behaviour the code has is modelled: the immediate `ReferenceError`. A working first-to-settle race is not part of this model.
- **Other runtime features.** Unhandled-rejection tracking, garbage collection and the `Promise` prototype chain (`instanceof` is the `Ref` case of `Value`) are not modelled.
- PromiseResolveAdoptsPending: the full adoption, up to the new promise carrying `q`'s outcome, is proved only for a `q` with no callbacks of its own on an idle queue. Otherwise the tasks of `q`'s earlier callbacks, and anything already queued, run first. For any pending `q`, PromiseResolveQueuesAdoption states where the adoption task is queued, and AdoptionCompletes states what running it does. A proof that the tasks in front of it never touch the new promise is not part of this model.
- HandlerOutcome: for a handler that returns a promise, it states only what is registered on the returned promise. The eventual outcome of the derived promise is stated separately, by AdoptionCompletes and the `Promise.resolve` adoption lemmas.
