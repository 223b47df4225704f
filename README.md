# A verified model of a hand-written JavaScript Promise

This project models src/promise.js, a Promise written by hand on top of one
"run later" primitive, `invokeAsync` (`setImmediate` or `setTimeout`). It
models these parts:

- **State machine.** Each instance has four fields: `state`, `value`,
  `_handled` and `handlers`. `_updateResult` settles at most once and adopts
  another instance instead of settling. `_executeHandlers` hands the queued
  reactions to the scheduler as one task, plus an unhandled-rejection check
  when one is due.
- **Chaining:** `then`, `catch` and `finally`.
- **Factories:** `P.resolve`, `P.reject`, `P.try` and `P.withResolvers`.
- **Combinators:** `P.all`, `P.any`, `P.race` and `P.allSettled`.

The modelling choices:

- **The heap.** Every promise instance lives in one arena, and a promise is
  named by its index there. A value that references a promise is
  `PromiseRef(id)`. `isThenable` is "a reference to an allocated instance";
  for values that reference only allocated instances this is the same as
  being a `PromiseRef` (`Transitions.IsThenable`).
- **The scheduler.** `invokeAsync` is a FIFO queue of tasks. A
  `RunHandlers(id, handlers)` task drains the queue taken at dispatch. An
  `UnhandledCheck(id)` task is the unhandled-rejection check. The host runs
  the oldest task with `Step`.
- **Callbacks.** A callback from the program is `User(f)`: a total function
  from the argument to `Return(v)` or `Throw(e)`. Every closure the library
  builds is a constructor of `Callback` whose effect is modelled:
  - the bound `_resolve` and `_reject`;
  - the two defaults of `then`;
  - the slot callback of `all` and the rejection counter of `any`;
  - the two steps of `finally`;
  - the record builders of `allSettled`.
- **Captured closure state.** The `promiseCount` and `results` of each `all`
  call are a table entry. So is the `promiseCount` of each `any` call.

The imperative structure of the source is kept:

- `Engine.Runtime` is a class whose fields are the heap, the task queue and
  those tables. Its methods change them in place, statement by statement as
  the source does. The `forEach` loops are `while` loops.
- Every method of `Runtime` states its whole new state as a ghost function
  of the old one:
  - the transitions of module `Transitions` for `_updateResult`,
    `_executeHandlers`, `then`, the factories, the drain and each callback;
  - `Engine.Constructed`, a fold of `_updateResult` over the executor's
    calls, for the constructor;
  - the functions of module `Combinators` for the combinators: `Chained`
    for `q.then(a).catch(b)`, `JoinedItems` for all's `forEach`,
    `ForwardedAll` for the `forEach` of `any` and `race` and the `map` of
    `allSettled`, and `AllOf`, `AnyOf`, `RaceOf` and `AllSettledOf` for the
    whole calls;
  - `Step` and `CheckUnhandled` state theirs for each kind of task.
- What those functions keep and change is proved as lemmas. The loops of
  all's `forEach` and of the other combinators' `forEach` also carry, as an
  invariant, which reactions each element handled so far has waiting on it.
- The settlement the promise constructor produces from its executor's
  calls is given by `Executors.Outcome`.
- The combinator counters are proved in `Aggregates`. What a combinator's
  reactions do when they fire is proved in `Reactions`, one firing at a
  time. `Runs` connects the two ends for each combinator: for element `j`
  of the input, the reactions the call leaves waiting, and what firing them
  in any later heap does to the combinator's promise.
- `Scenarios` states and proves the outcome of cases from
  test/index.test.js on a fresh `Runtime`.

Behaviours of the code that the model reproduces as written:

- `_reject` also goes through the adoption check. `P.reject(p)` with `p` an
  instance leaves the new promise PENDING and subscribed to `p`. It does not
  reject it with `p`.
- `P.try(value)` never calls its argument. It is `new P(resolve =>
  resolve(value))`, so an instance is adopted rather than returned.
- `P.all` calls `.then` on each element itself. An element that is not a
  promise makes the executor throw a TypeError, and that rejects the result.
  The elements before it have already been subscribed.
- Rejected records from `allSettled` carry the key `reason`
  (src/promise.js:232). test/index.test.js:171 expects `value` for them. The
  model follows the code: `Values.SettledRecord` has `reason` and no `value`
  for a rejection.
- A promise resolved with itself adopts itself: it subscribes to itself and
  stays PENDING.
- There is no "already resolved" flag. After `resolve(p)` adopts `p`, a later
  `resolve(x)` still settles the promise with `x`
  (`Executors.AdoptionDoesNotSettle`).
- `P.race([])` stays PENDING for ever, and `P.all` of a non-empty array only
  fulfils once every element has reported.

## Model

| member | source | states |
|---|---|---|
| Values.IsArray | src/promise.js:11-13 | `isArray` accepts exactly the arrays, the empty one included: the truthiness test never refuses one |
| Values.NewAggregateError | src/promise.js:15-20 | an AggregateError is a record whose `name` is "AggregateError" and whose `message` is the given text |
| Values.NewTypeError | src/promise.js:169 | the TypeError a combinator rejects with has `name` "TypeError" and the given message |
| Values.ThenLookupError | src/promise.js:175-176 | calling `.then` on an element that is no promise throws a TypeError; on `undefined` with the property-read message, on any other value with the not-a-function message |
| Values.SettledRecord | src/promise.js:228-233 | an allSettled record has the status tag, plus `value` for a fulfilment or `reason` for a rejection, and never the other key |
| Transitions.IsThenable | src/promise.js:7-9 | an instance is a reference to an allocated promise; for a value referencing only allocated promises the test holds exactly for promise references |
| Engine.Runtime.constructor | src/promise.js:22 | the runtime starts with no promises, no tasks and no combinator state |
| Engine.Runtime.Allocate | src/promise.js:24-29 | a new instance is PENDING, unhandled, with no handlers, at the next id; nothing else changes |
| Executors.ConstructorCalls | src/promise.js:30-34 | the calls the constructor makes are the executor's own, in order, then `_reject(e)` when the executor throws `e` |
| Executors.Outcome | src/promise.js:30-34 | the settlement the executor's calls give a fresh promise is never PENDING when there is one; the lemmas below say which call gives it |
| Executors.OutcomeIsFirstSettling | src/promise.js:30-34 | the settlement of a new promise is that of the first call passing a non-instance; it stays PENDING exactly when every call passes an instance |
| Executors.OutcomeIsFinal | src/promise.js:30-34 | once a prefix of the calls has settled the promise, the later calls, including a throw, change nothing |
| Executors.ResolveThenRejectThenThrow | src/promise.js:30-34 | `resolve(x); reject(y); throw e` fulfils with `x` |
| Executors.AdoptionDoesNotSettle | src/promise.js:76-79 | `resolve(p); resolve(x)` with `p` an instance fulfils with `x`, because the adoption settled nothing |
| Engine.Constructed | src/promise.js:30-34 | running the executor's calls through `_resolve`/`_reject` one after the other keeps the state well formed, only extends it, and changes no promise but the new one |
| Engine.ConstructedReaches | src/promise.js:30-34 | that fold leaves the new promise with exactly the settlement `Outcome` gives, or PENDING when every call passed an instance |
| Engine.Runtime.New | src/promise.js:24-35 | the new promise is at the next id; the whole new state is the fold of `_updateResult` over the executor's calls, adoption subscriptions included; the promise reaches exactly the settlement `Outcome` gives |
| Engine.Runtime.ApplyCall | src/promise.js:31-33 | one executor call leaves exactly the state `_updateResult` gives for it: a settlement, an adoption subscription, or nothing when already settled |
| Transitions.Dispatch | src/promise.js:43-67 | `_executeHandlers` schedules nothing while PENDING. Otherwise it schedules one drain task holding the whole queue, preceded by an unhandled check exactly when the promise is REJECTED and unhandled |
| Transitions.DrainedWf | src/promise.js:43-67 | `_executeHandlers` keeps the state well formed, settles nothing and only appends tasks |
| Engine.Runtime.ExecuteHandlers | src/promise.js:43-68 | the in-place `_executeHandlers` leaves the state `Drained` gives: the handler list emptied, the dispatch appended |
| Transitions.ResolvedWf | src/promise.js:70-85 | on a settled promise `_updateResult` changes nothing. With an instance it adopts: the promise stays PENDING, only a new derived promise is added, and its `_resolve`/`_reject` reaction is queued on the instance. Otherwise it writes the state and value and empties the handlers. No other promise changes state |
| Transitions.SettledWf | src/promise.js:81-84 | settling writes state and value, keeps `_handled`, empties the handlers and appends exactly the dispatch |
| Transitions.WrittenWf | src/promise.js:81-82 | writing state and value touches that one promise only |
| Engine.Runtime.UpdateResult | src/promise.js:70-85 | the in-place `_updateResult` leaves the state `Resolved` gives; promises only evolve and no other promise changes |
| Engine.Runtime.Resolve | src/promise.js:87-89 | `_resolve` is `_updateResult` with FULFILLED |
| Engine.Runtime.Reject | src/promise.js:91-93 | `_reject` is `_updateResult` with REJECTED, adoption included |
| Transitions.EnqueuedWf | src/promise.js:39-41 | `_addHandlers` appends the reaction to the source's queue and marks it handled, the derived promise is allocated fresh at the next id, and nothing else changes |
| Transitions.SubscribedWf | src/promise.js:95-130 | `then` marks the source handled and adds a fresh PENDING derived promise. It queues the reaction as the last one, on the source or in the drain task just scheduled. It settles nothing, fires no callback, and schedules a drain only when the source is settled |
| Engine.Runtime.Then | src/promise.js:95-130 | `then` with identity and rethrow as the defaults for missing callbacks leaves the state `Subscribed` gives, with the derived promise at the next id |
| Engine.Runtime.Catch | src/promise.js:132-134 | `catch(f)` is `then` with the identity as success branch |
| Engine.Runtime.Finally | src/promise.js:136-150 | `finally(cb)` subscribes a reaction that runs `call(result, failed)` on both branches, with the flag telling them apart |
| Engine.Runtime.FinallyChain | src/promise.js:137-141 | `call` chains the pass-through step on `P.resolve(callback())` and returns the chained promise |
| Transitions.FinallyPassesThrough | src/promise.js:138-140 | after the callback, a fulfilment passes the original value through unchanged, and a rejection becomes a new promise rejected with the original reason |
| Transitions.StaticResolved | src/promise.js:152-158 | `P.resolve` returns an instance unchanged and otherwise makes a new promise at the next id, keeping the state well formed |
| Engine.Runtime.StaticResolve | src/promise.js:152-158 | `P.resolve(v)` returns `v` itself when it is an instance, with nothing changed. Otherwise it adds one promise fulfilled with `v` and one empty drain task |
| Engine.Runtime.StaticReject | src/promise.js:160-164 | `P.reject(v)` adds one promise rejected with a plain `v`, with the unhandled check and the drain scheduled. An instance is adopted, leaving it PENDING |
| Engine.Runtime.New1 | src/promise.js:155-163 | a promise whose executor makes one call ends in the state `Resolved` gives for that call |
| Engine.Runtime.Try | src/promise.js:238-242 | `P.try(v)` resolves a new promise with `v` and never calls it; an instance is adopted |
| Engine.Runtime.WithResolvers | src/promise.js:244-251 | a new PENDING promise at the next id, with its bound `_resolve` and `_reject` |
| Transitions.FiredAll | src/promise.js:60-67 | a drain run to its end keeps the state well formed, throws nothing on the host, and leaves a trace of one firing per reaction, in registration order, on the success branch exactly when the source is FULFILLED, with the source's value |
| Transitions.FiredAllSnoc | src/promise.js:61-66 | the drain of the first `i + 1` reactions is the drain of the first `i` followed by the firing of reaction `i` |
| Engine.Runtime.Drain | src/promise.js:60-67 | the in-place drain loop leaves the state `FiredAll` gives |
| Transitions.Fired | src/promise.js:113-126 | one reaction branch records its firing, keeps the state well formed and only extends it |
| Transitions.FiredPure | src/promise.js:113-126 | a branch whose callback touches no promise settles only the derived promise: a return resolves it, a throw rejects it |
| Engine.Runtime.Fire | src/promise.js:113-126 | the in-place branch leaves the state `Fired` gives |
| Transitions.CalledWf | src/promise.js:113-126 | a callback call keeps the state well formed and extends it. A pure callback changes nothing. The library's bound closures return undefined. finally's steps return a promise they have just made |
| Engine.Runtime.Call | src/promise.js:113-126 | the in-place callback call leaves the state and completion `Called` gives |
| Transitions.AdoptionFollows | src/promise.js:76-79 | once the adopted instance has settled with a plain value, the adopting promise takes the same state and value |
| Reactions.PureBranchSettles | src/promise.js:113-126 | a branch whose callback touches no promise settles the derived promise with the callback's completion (a return fulfils, a throw rejects) and leaves every other promise and the combinator tables alone |
| Reactions.BoundFires | src/promise.js:76-77 | a branch that calls the bound `_resolve` or `_reject` of a pending promise settles that promise with the source's value, fulfilled or rejected accordingly |
| Reactions.DefaultsPassThrough | src/promise.js:96-107 | firing a reaction made of then's two defaults on a settled source gives the derived promise the source's state and value |
| Reactions.RejectionSkipsSuccess | src/promise.js:102-107 | with then's default failure callback, a rejection rejects the derived promise with the same reason, whatever the success callback |
| Reactions.FulfilmentSkipsCatch | src/promise.js:132-134 | with the identity as success branch, as `catch` has, a fulfilment fulfils the derived promise with the same value, whatever the failure callback |
| Engine.Runtime.CheckUnhandled | src/promise.js:50-54 | the unhandled check throws the value on the host exactly when the promise is still unhandled when the task runs; nothing else changes |
| Engine.Runtime.Step | src/promise.js:22 | the host runs the oldest task. A drain leaves the state `FiredAll` gives on the remaining queue. An unhandled check leaves the state with that task popped and, when the promise is still unhandled, its value appended to the list of values thrown on the host; nothing else changes |
| Transitions.PoppedWf | src/promise.js:22 | taking the oldest task off the queue keeps the state well formed |
| Aggregates.AllReplayRecords | src/promise.js:176-179 | whatever order the slot callbacks run in, the counter is the number that ran and slot `i` holds input `i`'s value |
| Aggregates.AllCompletesInIndexOrder | src/promise.js:176-179 | `all` completes exactly when every input has fulfilled, and then resolves with the values in input order |
| Aggregates.AllCompletesOnlyAtTheEnd | src/promise.js:178-179 | no earlier slot callback completes `all`; it resolves on the last one |
| Aggregates.AllOutOfOrderExample | src/promise.js:176-179 | inputs fulfilling in the order 2, 0, 1 still give `[v0, v1, v2]` |
| Transitions.SlotFilledWf | src/promise.js:176-179 | the slot callback records the value and bumps the counter, and settles `all`'s promise only on completion, fulfilled with the dense results |
| Engine.Runtime.FillSlot | src/promise.js:176-179 | the in-place slot callback leaves the state `SlotFilled` gives |
| Reactions.AllSlotFires | src/promise.js:176-179 | element `j` fulfilling records its value in slot `j` of its `all` call; `all`'s promise is fulfilled with the dense results once every element has reported, and stays as it was before that; the callback returns, so a pending derived promise is fulfilled with `undefined` and `catch(reject)` has nothing to catch |
| Reactions.AllRejectsOnRejection | src/promise.js:175-181 | element rejected with `e`: its slot reaction rejects the derived promise with `e`, and the `catch(reject)` on that promise later rejects `all`'s promise with `e` |
| Aggregates.AnyExhaustedExactly | src/promise.js:200-204 | `any` gives up exactly when the number of rejections equals the input length, never earlier |
| Transitions.RejectionCountedWf | src/promise.js:200-204 | the rejection counter settles `any`'s promise only when exhausted, rejected with the AggregateError |
| Engine.Runtime.CountRejection | src/promise.js:200-204 | the in-place rejection counter leaves the state `RejectionCounted` gives |
| Reactions.AnyFulfilsWithFirst | src/promise.js:196-199 | an element fulfilling with `v` fulfils `any`'s pending promise with `v` |
| Reactions.AnyFailFires | src/promise.js:200-204 | the `catch` callback of `any` counts one rejection; reaching the input length rejects `any`'s promise with the AggregateError, and before that no other promise changes |
| Reactions.AnyCountsRejection | src/promise.js:196-205 | an element rejecting makes its reaction reject the derived promise, whose drain later counts one rejection as `AnyFailFires` says |
| Reactions.RaceTakesFirstSettlement | src/promise.js:216 | an element fulfilling with `v` fulfils `race`'s promise with `v` at once; rejecting with `e` rejects the derived promise, whose `catch(reject)` later rejects `race`'s promise with `e` |
| Reactions.SettlementAlwaysFulfils | src/promise.js:226-233 | once both record builders have fired, the promise the map callback returns is fulfilled with the record of the element's settlement, whether it fulfilled or rejected |
| Transitions.AllAddedWf | src/promise.js:172-173 | the captured counter and results of a new `all` call keep the state well formed |
| Transitions.AnyAddedWf | src/promise.js:194 | the captured counter of a new `any` call keeps the state well formed |
| Combinators.Chained | src/promise.js:175-181 | `q.then(a).catch(b)` adds two PENDING promises and leaves `a` waiting on `q` and `b` waiting on the first of them; it settles nothing and every reaction already waiting still waits |
| Engine.Runtime.Chain | src/promise.js:175-181 | the in-place `q.then(a).catch(b)` leaves the state `Chained` gives |
| Combinators.FirstNonInstance | src/promise.js:174-175 | all's `forEach` stops at the first element that is no instance; every element before it is one, and there is none exactly when all are |
| Combinators.JoinedAll | src/promise.js:174-182 | all's `forEach` over instances leaves element `j` with the slot callback of index `j` waiting on it and all's `reject` waiting on the promise that derives; it settles nothing |
| Combinators.JoinedItems | src/promise.js:174-182 | all's `forEach` joins every element as `JoinedAll` says when all are instances, keeping all's promise PENDING; otherwise it rejects all's promise with the TypeError of the first element that is no instance. No other promise settles |
| Engine.Runtime.JoinAllItems | src/promise.js:174-182 | the in-place `forEach` leaves the state `JoinedItems` gives; its loop keeps, and it ensures, that element `j` carries the slot callback of index `j` and all's `reject` |
| Combinators.AllOf | src/promise.js:166-184 | `P.all` rejects a non-array with a TypeError and fulfils `[]` with `[]`. Otherwise it registers the counter for the input length and stays PENDING when every element is a promise, or rejects with the TypeError of the first element that is not. It settles nothing that existed and every reaction waiting still waits |
| Combinators.AllWaits | src/promise.js:174-181 | after `P.all` on an array of promises, element `j` has the slot callback of index `j` waiting on it and the promise that derives has all's `reject` waiting on it |
| Combinators.AllSlotsPending | src/promise.js:174-182 | after `P.all` on a non-empty array of promises, the promise each slot callback derives is pending |
| Engine.Runtime.All | src/promise.js:166-184 | the in-place `P.all` leaves the state and returns the promise `AllOf` gives |
| Runs.AllWired | src/promise.js:174-181 | after `P.all` on an array of promises, its promise is PENDING with a fresh counter, and element `j` carries the slot callback of index `j` and all's `reject` |
| Runs.AllFires | src/promise.js:175-181 | all's reaction pair for element `j` fires as follows: a fulfilment is recorded in slot `j`, fulfils the derived promise with `undefined` and fulfils all's promise with the dense results once every element has reported; a rejection rejects the derived promise, and that rejection rejects all's promise with the same reason |
| Runs.CarriedSlotFires | src/promise.js:175-181 | all's reaction pair fires as `AllFires` says in any later heap where it still waits |
| Runs.AllRecordsOrRejects | src/promise.js:166-184 | for every element `j` of `P.all`'s input, in any later heap where its reactions still wait: its fulfilment writes its value into slot `j` of the call's table entry and, when that makes the count reach the input length, fulfils all's promise with the table as a dense array; its rejection rejects all's promise with that reason. That the table then holds element `i`'s value at index `i` for every `i` is `AllFulfilsInIndexOrder` |
| Runs.AllTallyStarts | src/promise.js:172-182 | right after `P.all` on an array of promises, the call's table entry is the fresh entry for the input length with no element observed |
| Runs.TallyStep | src/promise.js:176-180 | when element `j`, not yet observed and fulfilled with `v`, fires its slot callback, the entry becomes the entry with `(j, v)` observed as well; it is complete exactly when every index has been observed; until then all's promise keeps its state and value, and when it completes a pending all's promise is fulfilled with every element's value at that element's index |
| Runs.TalliesKept | src/promise.js:172-182 | a later heap in which every settlement has stayed final and the call's entry is unchanged keeps the entry tied to the same observations, each still true |
| Runs.FiredKeepsEntry | src/promise.js:176-180 | only a slot callback of call `k` changes table entry `k`: every other reaction leaves it as it was |
| Runs.AllFulfilsInIndexOrder | src/promise.js:166-184 | for every element `j` of `P.all`'s input, in any later heap where its reactions still wait and the entry holds the observations made so far: firing `j`'s slot callback records `j`'s value, and the call that completes the entry fulfils all's promise with the input's values in index order, whatever order the elements settled in |
| Combinators.Forwarded | src/promise.js:196-205 | `P.resolve(x).then(a).catch(b)`: the promise `P.resolve` gives is `x` itself for an instance, or a new one fulfilled with `x`; `a` waits on it and `b` on the promise that derives |
| Engine.Runtime.Forward | src/promise.js:196-205 | the in-place `P.resolve(x).then(a).catch(b)` leaves the state and returns the promises `Forwarded` gives |
| Combinators.ForwardedAll | src/promise.js:195-206 | the `forEach` of `any` and `race` forwards every element in order; it settles nothing that existed and every reaction waiting still waits |
| Combinators.ForwardedAllWaits | src/promise.js:195-206 | after that `forEach`, element `j`'s `P.resolve` promise has `a` waiting on it and the promise that derives has `b` waiting on it |
| Combinators.ForwardedAllPending | src/promise.js:195-206 | after the `forEach` of `any` and `race`, the promise each element's `catch` derives is pending |
| Engine.Runtime.ForwardEach | src/promise.js:195-206 | the in-place `forEach` leaves the state `ForwardedAll` gives; its loop keeps, and it ensures, that element `j` carries `a` and `b` as `ForwardedAllWaits` says |
| Engine.Runtime.ForwardNext | src/promise.js:196-205 | one turn of that `forEach` extends both the state and the reactions each element carries by element `i` |
| Combinators.AnyOf | src/promise.js:186-208 | `P.any` rejects a non-array with a TypeError and `[]` with the AggregateError. Otherwise it registers the counter for the input length, forwards every element and stays PENDING |
| Combinators.AnyWaits | src/promise.js:195-205 | after `P.any` on a non-empty array, element `j`'s `P.resolve` promise has any's `resolve` waiting on it and the promise that derives has any's rejection counter waiting on it |
| Engine.Runtime.Any | src/promise.js:186-208 | the in-place `P.any` leaves the state and returns the promise `AnyOf` gives |
| Runs.AnyWired | src/promise.js:195-205 | after `P.any`, element `j` is resolved to a promise carrying any's `resolve` and the counter of this call |
| Runs.AnyFires | src/promise.js:196-205 | any's reaction pair fires as follows: a fulfilment fulfils any's promise with the value; a rejection rejects the derived promise, which counts one rejection |
| Runs.AnyCountFires | src/promise.js:200-204 | the counter reaction counts one rejection, rejects any's promise with the AggregateError on the last one and changes no other promise before that |
| Runs.AnyFulfilsOrCounts | src/promise.js:186-208 | for every element `j` of `P.any`'s input, in any later heap where its reactions still wait: its fulfilment fulfils any's promise with that value, and its rejection is counted towards the AggregateError |
| Runs.AnyCountStarts | src/promise.js:194-206 | right after `P.any` on a non-empty array, the call's counter is the fresh one for the input length with no rejection counted |
| Runs.CountStep | src/promise.js:200-204 | when element `j`, not yet counted and refused, fires the counter, the counter grows by one; it is exhausted exactly when every element has been counted; until then no other promise changes, and when it is exhausted a pending any's promise is rejected with the AggregateError |
| Runs.CountsKept | src/promise.js:194-206 | a later heap in which every settlement has stayed final and the call's counter is unchanged keeps the counter tied to the same refused elements, each still rejected |
| Runs.AnyGivesUpOnLast | src/promise.js:186-208 | for every element `j` of `P.any`'s input, in any later heap where its reactions still wait and the counter holds the rejections counted so far: counting `j` exhausts the counter exactly when `j` is the last of the input's elements to be refused; before that no other promise changes, and then a pending any's promise is rejected with the AggregateError |
| Combinators.RaceOf | src/promise.js:210-219 | `P.race` rejects a non-array with a TypeError. On an array it forwards every element and stays PENDING, for ever on `[]` |
| Combinators.RaceWaits | src/promise.js:216 | after `P.race`, element `j`'s `P.resolve` promise has race's `resolve` waiting on it and the promise that derives has race's `reject` waiting on it |
| Engine.Runtime.Race | src/promise.js:210-219 | the in-place `P.race` leaves the state and returns the promise `RaceOf` gives |
| Runs.RaceWired | src/promise.js:216 | after `P.race`, element `j` is resolved to a promise carrying race's `resolve`, and the promise that derives carries race's `reject` |
| Runs.RaceFires | src/promise.js:216 | race's reaction pair fires as follows: a fulfilment fulfils race's promise with the value; a rejection rejects the derived promise, which rejects race's promise with the same reason |
| Runs.RaceSettlesWithFirst | src/promise.js:210-219 | for every element `j` of `P.race`'s input, in any later heap where its reactions still wait: its settlement settles race's pending promise the same way with the same value |
| Combinators.AllSettledOf | src/promise.js:221-236 | `P.allSettled` rejects a non-array with a TypeError through `P.reject`. On an array it maps every element to its record promise and returns `P.all` of those: `[]` fulfils with `[]`, otherwise it is all's PENDING promise with a counter for the input length |
| Combinators.AllSettledForwards | src/promise.js:226-234 | after `P.allSettled`, element `j`'s `P.resolve` promise has the fulfilment record builder waiting on it, and the promise that derives has the rejection record builder waiting on it |
| Combinators.AllSettledJoins | src/promise.js:224-235 | after `P.allSettled`, the `j`-th record promise has the slot callback of index `j` of the inner `P.all` waiting on it |
| Combinators.AllSettledPending | src/promise.js:225-235 | after `P.allSettled` on an array, every record promise and every promise the inner all's slot callbacks derive is pending |
| Engine.Runtime.AllSettled | src/promise.js:221-236 | the in-place `P.allSettled` leaves the state and returns the promise `AllSettledOf` gives |
| Runs.SettledFires | src/promise.js:226-233 | the record builders fire as follows: a fulfilment with `v` fulfils the derived promise with `{status: 'fulfilled', value: v}`; a rejection passes through `then` and the `catch` fulfils the record promise with `{status: 'rejected', reason}` |
| Runs.CarriedRecordFires | src/promise.js:226-233 | the record builders fire as `SettledFires` says in any later heap where they still wait |
| Runs.AllSettledItem | src/promise.js:226-234 | after `P.allSettled`, element `j` is resolved to a promise carrying the two record builders |
| Runs.AllSettledIsAll | src/promise.js:224-235 | `P.allSettled` on an array is the map followed by `P.all` of the record promises, which are all instances, so `AllWired` and `AllRecordsOrRejects` apply to its inner call |
| Runs.AllSettledRecords | src/promise.js:221-236 | for every element `j` of `P.allSettled`'s input, in any later heap where its reactions still wait: firing its two record builders leaves its record promise fulfilled with the record of its settlement, whether it fulfilled or rejected |
| Runs.PureFiringKeeps | src/promise.js:226-233 | a reaction whose callback touches no promise, firing on a settled source, leaves the record promise, the slot's derived promise and allSettled's promise unrejected, provided its derived promise is none of the last two and it returns when it derives the record promise |
| Runs.SlotFiringKeeps | src/promise.js:176-180 | the inner all's slot callback, firing on a fulfilled record promise, leaves the path unrejected: it records a value and may fulfil all's promise, but rejects nothing |
| Runs.PathHolds | src/promise.js:225-234 | with the record builders on element `j`'s promise and the inner all's slot pair on its record promise, firing any of the four reactions of the path keeps it unrejected |
| Runs.PathStarts | src/promise.js:225-234 | after the map and the inner `P.all`, the record promise of element `j`, the promise its slot callback derives and allSettled's promise are all pending |
| Runs.AllSettledStartsUnrejected | src/promise.js:221-236 | right after `P.allSettled` on an array, element `j`'s path, allSettled's own promise included, is unrejected |
| Runs.AllSettledNeverRejects | src/promise.js:221-236 | for every element `j` of `P.allSettled`'s input, in any later heap where its reactions still wait and its path is unrejected: firing either record builder, the slot callback or the inner all's `reject` keeps the path unrejected, so allSettled's promise is never rejected by them |
| Scenarios.ChainThen | src/promise.js:95-130 | `new P(resolve => resolve(2)).then(x => x * 2)` fulfils the derived promise with 4 after two tasks |
| Scenarios.UnhandledRejection | src/promise.js:49-55 | `P.reject('Error')` with no handler throws `'Error'` on the host when the first task runs |
| Scenarios.CaughtRejection | src/promise.js:49-55 | `P.reject('Error').catch(...)` throws nothing, because the handler is attached before the check runs |

## Left out

- src/index.js registers the library on the global object. It is not part of this model.
- rollup.config.js holds the build configuration. It is not part of this model.
- Real time is not modelled. `setImmediate`/`setTimeout` become a FIFO task queue with no clock, and the tests' timer delays have no counterpart.
- The host crash is not modelled. The throw in the unhandled-rejection task is recorded in `uncaught`.
- JavaScript object machinery is abstracted:
  - `Error.prototype` inheritance: AggregateError and TypeError are `{name, message}` records.
  - `.bind`.
  - `typeof f === 'function'`: a missing callback is `None`.
  - `constructor === Array`: `isArray` is the `Array` tag of a value.
- Values are `undefined`, integers, strings, promise references, arrays and plain objects. `null`, booleans, functions and symbols are not modelled, and a plain object cannot carry a callable `then`.
- Num: JavaScript numbers are doubles; the model's `Num(n: int)` is an unbounded integer, so fractions, `NaN`, infinities and rounding are not modelled.
- Arrays are immutable values, so aliasing of the input array is not modelled. `P.all` and `P.any` compare their counters with `promises.length` each time a callback runs, reading the caller's array as it is then. A program that pushes to the array or truncates it after the call makes the source settle later, never, or on a different element. The model fixes the length when the call is made (`AllStart`, `AnyStart`), which is what the source does whenever the array is left alone.
- Arrays have no holes. `forEach` and `map` skip the holes of a sparse array, so `P.all` of a sparse array never reaches `promises.length` fulfilments and stays PENDING; the model cannot represent that input.
- Values.ArrayRequiredMessage: the text of `arrayRequeredMessage` comes from src/constants.js, which is not part of this model. The constant is a stand-in for it.
- Values.ThenLookupError: the messages of the TypeError `promise.then(...)` throws on a non-promise are the host's own, written here in V8's wording: one for `undefined`, where reading the property fails, and one for every other modelled value, where the call fails. Other hosts word them differently.
- User callbacks are total functions from the argument to a return or a throw. They cannot reach the heap, so a callback that calls other promise methods is not modelled. A callback may return a promise reference, which is then adopted.
- Engine.Runtime.New: the program's executor and its inputs (combinator items, executor calls) may only reference promises that exist. The same holds for the elements passed to `All`, `Any`, `Race` and `AllSettled`.
- Runs: the end-to-end lemmas take any later heap in which the call's reactions still wait, and state what firing each reaction does there. Which drain task the host runs first, and what other operations ran in between, is left open; the lemmas hold for every such order.
- Runs.AllFulfilsInIndexOrder: all's table entry is tied to the elements' settlements step by step, not by one invariant over every run. The call starts it (`AllTallyStarts`), a slot callback advances it (`TallyStep`), every other reaction leaves it alone (`FiredKeepsEntry`) and a heap that keeps it keeps its observations (`TalliesKept`). No lemma chains these along a whole run.
- Runs.AnyGivesUpOnLast: any's counter is tied to the refused elements in the same step-by-step way (`AnyCountStarts`, `CountStep`, `CountsKept`).
- Runs.AllSettledNeverRejects: the path is assumed unrejected in the later heap, as `AllSettledStartsUnrejected` makes it right after the call. No reachable operation settles allSettled's internal promises other than the reactions the lemma covers, because user callbacks cannot reach the heap, but that closure over all runs is not proved.
- Runs: the firing lemmas are stated for settlement values that are not promise references. A promise never settles with an allocated instance (`Transitions.ResolvedWf` adopts it instead), so this excludes only references to promises that do not exist.