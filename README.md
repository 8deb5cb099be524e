# VCPromises in Dafny

A model of the core of VCPromises, a small Swift promise library, with
proofs about it.

A `Promise` is pending with a list of callbacks, or settled with a value or
an error. It settles once; later settlements are ignored. Callbacks
registered while it is pending wait in the list. When it settles they are
handed, all together, to the promise's dispatch queue as one block.
Callbacks registered after it settled are handed to the queue one block
each. No callback ever runs inside the call that registered it.

On top of this, the library offers:

- `then`, `catch` and `finally`, which register callbacks;
- `thenFlatMap` and `thenMap`, which chain a new promise;
- typed and by-value `catch`;
- `replace` and `replaceFail`, which recover from an error with another
  promise;
- `zip` of two or three promises, joined through a `DispatchGroup`;
- `flatten` of an array of promises, joined through a `DispatchGroup`;
- the `Promise<Success>` conveniences.

An older, synchronous `Promise` (VCPromises/Source/Promise.swift) is
modelled too. It runs callbacks directly instead of on a queue.

## How the model is built

- **`Outcomes`** holds the values of the model.
  - An error has a type name and a payload, so Swift's `as? T` is a test
    on the type name.
  - An `Outcome` is a success or a failure.
  - `Thrown` is what a `throws` closure does: it returns or it throws.
  - `Queue` names a dispatch queue.
  - Swift's generic values are erased to one `Value` datatype. This lets
    one callback type carry the closures of every combinator.
- **`Promises`** is the state machine of Sources/Promise.swift.
  - It is a class with the fields `state` and `queue`.
  - `scheduled` is the list of blocks handed to the queue and not yet run
    (FIFO).
  - Two ghost fields support the proofs: `registered`, every callback ever
    added, and `delivered`, the callback calls the queue has run so far.
  - `Valid()` says that every registered callback is called exactly once,
    in registration order, with the outcome the promise settled on. The
    calls counted are the ones already run plus the ones in blocks still
    waiting.
  - `RunScheduled` is the queue running its oldest block.
  - `RunWork` is the block that `init(_:on:)` schedules: the work closure
    runs, then its `fulfill`/`reject` calls take effect, and a throw
    rejects the promise.
- **`LegacyPromises`** is the synchronous promise. Each of its methods
  returns the callback calls it made.
- **`Reactions`** turns the closures the library builds into datatypes.
  - Examples: `{ _ in }`, the `fulfill`/`reject` of a promise being built,
    the wrappers of `thenFlatMap` and `replace`, the join reactions of
    `zip` and `flatten`.
  - `React` says what running a callback on an outcome does.
  - `Perform` does it.
  - `Eventually` says how a chained promise ends up settled. It takes a
    function that gives the outcome of any promise a closure returns.
- **`Then`, `Catches`, `Replace`, `SuccessPromises`** are the
  registration methods. Lemmas beside them say how each chained promise
  settles.
- **`ZipJoin` and `FlattenJoin`** model the `DispatchGroup` and the
  variables it guards.
  - Each is a class, proved against a pure fold over the sequence of
    inputs' arrivals.
  - An arrival order is any permutation of the inputs.
- **`Zip`, `Flatten` and `Joins`** build the joined promise.
  - They show that every input receives its two callbacks once for every
    position it holds. A promise passed twice receives both positions'
    callbacks.
  - `zip` writes one `group.append` line per input. `Zip.AppendAll` walks
    the argument list instead, one `append` per position in the same
    order, so one proof serves both arities.

Three behaviours of the code are worth stating outright:

- `flatten` collects values in the order the inputs settle, not in input
  order. Sources/Promise+Flatten.swift:36 appends each value when its
  input is fulfilled.
  - `FlattenJoin.SuccessValuesOfOrder` states this for every arrival
    order. `FlattenJoin.FlattenFollowsSettlementNotInputOrder` is a
    two-input illustration of it.
- `thenFlatMap`, `thenMap` and `zip` build their promise with
  `init(work:)`.
  - Sources/Promise.swift only has `init(_:on:)`, which runs the work
    later on the queue. `init(work:)` is the older one, which runs the work
    at once.
  - The model runs the work of these three at once.
- A rejected input rejects `flatten`'s promise when its rejection arrives.
  - The notify block's guard `values.count == promises.count`
    (Sources/Promise+Flatten.swift:40) also stops a fulfilment after any
    rejection.
  - `FlattenJoin.FlattenRejectsWithFirstError` states the first rejection
    wins.

## Model

| member | source | states |
|---|---|---|
| Promises.OutcomeOfSettle | Sources/Promise.swift:86-90 | settling a state changes its outcome only when it was pending, and then to the new outcome |
| Promises.FirstSettlementWins | Sources/Promise.swift:86-90 | after any sequence of fulfil/reject calls, a pending promise holds the first one's outcome, and a settled one is unchanged |
| Promises.AtMostOneSettleBlock | Sources/Promise.swift:86-98 | a sequence of settlements hands the queue exactly one block: the first settlement's, with every waiting callback, and none if it was already settled |
| Promises.SettleAllStep | Sources/Promise.swift:86-90 | one more settlement extends the fold of settlements and of blocks scheduled |
| Promises.WorkOutcome | Sources/Promise.swift:51-56 | a work closure settles the promise with its first fulfil/reject call; if it makes none and throws, with the thrown error |
| Promises.FireBlockAppend | Sources/Promise.swift:95-96 | the callback calls of the settle block over joined lists are the calls over each list in turn |
| Promises.DeliveriesAppend | Sources/Promise.swift:100-102 | the calls of queued blocks run in FIFO order: the calls of two block lists joined are the calls of each in turn |
| Promises.RegisterOne | Sources/Promise.swift:73-80 | registering on a pending promise appends to its list; on a settled one it schedules one block calling the callback with the outcome |
| Promises.RegisterAllAppend | Sources/Promise.swift:73-80 | registering two lists in turn has the same state and schedules the same blocks as registering their concatenation |
| Promises.SinglesAppend | Sources/Promise.swift:76-79 | the single-reaction blocks for two lists of callbacks registered after settlement are those of the first list followed by those of the second |
| Promises.SinglesDeliver | Sources/Promise.swift:76-79 | callbacks registered one by one after settlement receive exactly the calls the settle block would have made for them, in order |
| Promises.Promise.constructor | Sources/Promise.swift:31-34 | a new promise is pending with no callback on the given queue, and nothing is scheduled |
| Promises.Promise.WithValue | Sources/Promise.swift:36-39 | the promise is fulfilled with the value, and nothing is scheduled |
| Promises.Promise.WithError | Sources/Promise.swift:41-44 | the promise is rejected with the error, and nothing is scheduled |
| Promises.Promise.WithWork | Sources/Promise.swift:47-58 | the promise is pending and the only block scheduled is the work; nothing runs inside the initialiser |
| Promises.Promise.Reject | Sources/Promise.swift:60-62 | the state is the old one settled with the error, and the settle block (if any) is appended to the queue |
| Promises.Promise.Fulfill | Sources/Promise.swift:64-66 | the state is the old one settled with the value, and the settle block (if any) is appended to the queue |
| Promises.Promise.AddCallbacks | Sources/Promise.swift:68-81 | a pending promise appends the callback; a settled one schedules one block calling it with the outcome; no call runs now, and every callback is still called exactly once |
| Promises.Promise.SettledRegistration | Sources/Promise.swift:76-79 | on a settled promise, the calls made so far plus those scheduled are the settle-block calls over all registered callbacks plus the new one |
| Promises.Promise.UpdateState | Sources/Promise.swift:86-90 | only a pending promise changes state; it then schedules one block calling all its waiting callbacks with the outcome |
| Promises.Promise.FireIfCompleted | Sources/Promise.swift:92-98 | schedules one block calling every given callback with the settled outcome, and nothing while pending; state unchanged |
| Promises.Promise.Enqueue | Sources/Promise.swift:100-102 | the block is appended to the queue and nothing else changes |
| Promises.Promise.RunScheduled | Sources/Promise.swift:100-102 | the queue runs its oldest block; the calls it makes are those the block holds, and they join the calls already made |
| Promises.Promise.RunWork | Sources/Promise.swift:51-57 | running the work settles the promise as `WorkCalls` says, keeping every callback called exactly once |
| LegacyPromises.SecondWaiterNeverFires | VCPromises/Source/Promise.swift:87-98 | with two callbacks waiting, the old promise never calls the second; the current version does |
| LegacyPromises.LegacyPromise.constructor | VCPromises/Source/Promise.swift:24-26 | a new promise is pending with no callback |
| LegacyPromises.LegacyPromise.WithValue | VCPromises/Source/Promise.swift:28-30 | the promise is fulfilled with the value |
| LegacyPromises.LegacyPromise.WithError | VCPromises/Source/Promise.swift:32-34 | the promise is rejected with the error |
| LegacyPromises.LegacyPromise.WithWork | VCPromises/Source/Promise.swift:36-48 | the work runs inside the initialiser; the state is the first of its fulfil/reject calls, or the thrown error |
| LegacyPromises.LegacyPromise.Reject | VCPromises/Source/Promise.swift:50-52 | settles with the error if pending, calling only the first waiting callback |
| LegacyPromises.LegacyPromise.Fulfill | VCPromises/Source/Promise.swift:54-56 | settles with the value if pending, calling only the first waiting callback |
| LegacyPromises.LegacyPromise.Catch | VCPromises/Source/Promise.swift:58-61 | registers a callback that ignores values and returns the same promise |
| LegacyPromises.LegacyPromise.AddCallbacks | VCPromises/Source/Promise.swift:63-76 | a pending promise appends the callback; a settled one calls it at once with the outcome |
| LegacyPromises.RegisterAfterSettling | VCPromises/Source/Promise.swift:63-76 | a callback added after settlement runs once, after every reaction that already ran, and the callbacks waiting at settlement stay as they were |
| LegacyPromises.LegacyPromise.UpdateState | VCPromises/Source/Promise.swift:81-85 | only a pending promise changes state, and then only its first waiting callback is called |
| LegacyPromises.LegacyPromise.FireIfCompleted | VCPromises/Source/Promise.swift:87-98 | calls the first callback of the list with the outcome, and no other |
| Reactions.ExtendsTransitive | Sources/Promise.swift:68-81 | two registrations in turn are one registration of both lists |
| Reactions.ForwardingSettlesAs | Sources/Promise+Then.swift:16 | the pair (`fulfill`, `reject`) of a promise settles that promise with whatever outcome it receives |
| Reactions.CallsAppend | Sources/Promise.swift:95-96 | the caller-visible calls of joined deliveries are those of each part in turn |
| Reactions.Perform | Sources/Promise+Then.swift:14-20 | running a callback does what `React` says: settles the target, calls the caller's block, or registers on the promise a closure returned |
| Reactions.MakeSettled | Sources/Promise+Then.swift:27-31 | `Promise(value:)` or `Promise(error:)` of an outcome: a fresh promise settled with it |
| Then.FlatMap | Sources/Promise+Then.swift:11-22 | a fresh pending promise, and `self` gains exactly the flat-map callback aimed at it |
| Then.ThenFlatMap | Sources/Promise+Then.swift:11-22 | as `FlatMap`, with the caller's closure returning a promise |
| Then.ThenMap | Sources/Promise+Then.swift:25-33 | as `FlatMap`, with the caller's closure returning a value wrapped in a settled promise |
| Then.ThenFlatMapSettlesAs | Sources/Promise+Then.swift:13-21 | the chained promise settles as the returned promise settles, or with the thrown error; an upstream error passes unchanged |
| Then.ThenMapSettlesAs | Sources/Promise+Then.swift:25-33 | the chained promise is fulfilled with the mapped value, or rejected with the thrown or upstream error |
| Then.MapChainPassesRejection | Sources/Promise+Then.swift:25-33 | an error passes unchanged through any chain of `thenMap` |
| Then.MapChainStopsAtThrow | Sources/Promise+Then.swift:25-33 | the first stage that throws decides the chain's error |
| Then.Then | Sources/Promise+Then.swift:36-40 | adds exactly one callback with both closures and returns the same promise |
| Then.ThenOnly | Sources/Promise+Then.swift:43-46 | adds the closure with `{ _ in }` for errors and returns the same promise |
| Then.Catch | Sources/Promise+Then.swift:49-51 | adds the closure with `{ _ in }` for values and returns the same promise |
| Then.Finally | Sources/Promise+Then.swift:54-56 | adds one callback that runs the block on either outcome |
| Then.DefaultSideIgnores | Sources/Promise+Then.swift:37 | the `{ _ in }` side of a callback does nothing |
| Then.FinallyCallbackRunsBlock | Sources/Promise+Then.swift:54-56 | the callback `finally` registers calls its block once on either outcome |
| Then.FinallyRunsOnce | Sources/Promise+Then.swift:54-56 | on a settled promise, either way, a `finally` registered once among other callbacks has its block called exactly once, between the calls of the callbacks registered before and after it |
| Catches.CatchOn | Sources/Promise+Catch.swift:31-33 | adds one callback ignoring values and returns the same promise |
| Catches.CatchOfType | Sources/Promise+Catch.swift:36-40 | adds the typed catch and returns the same promise |
| Catches.CatchOfValue | Sources/Promise+Catch.swift:43-47 | adds the by-value catch and returns the same promise |
| Catches.TypedCatchFiresIff | Sources/Promise+Catch.swift:39 | a typed catch reacts exactly to errors of its type, and calls the handler with that error |
| Catches.ValueCatchFiresIff | Sources/Promise+Catch.swift:46 | a by-value catch reacts exactly to a rejection with an equal error |
| Catches.FulfilledNeverCatches | Sources/Promise+Catch.swift:31-33 | on fulfilment no catch handler is called |
| Catches.CatchesSeeTheSameError | Sources/Promise+Catch.swift:31-47 | on rejection with `e`, a chain mixing plain, type-filtered and value-filtered catches makes exactly the calls each kind promises (plain: always; by type: when `e` has the type; by value: when `e` is the error), in registration order |
| Catches.RejectedPromiseRunsMatchingCatches | Sources/Promise+Catch.swift:31-47 | on a promise rejected with `e`, before or after a chain of catches of any kinds was registered, the closures run and still to run are exactly those the chain promises, in order |
| Catches.MixedChainRunsEveryMatch | Tests/Promise+CatchTests.swift:173-186 | a value catch of the error, a type catch of its type and a plain catch on a promise rejected with that error all run, in that order |
| Replace.Replace | Sources/Promise+Replace.swift:32-51 | a fresh pending promise, and `self` gains exactly the replacing callback aimed at it |
| Replace.ReplaceFail | Sources/Promise+Replace.swift:54-73 | as `Replace`, with a recovery that ignores the error |
| Replace.ReplaceSettlesAs | Sources/Promise+Replace.swift:37-47 | a value passes unchanged; an error is replaced by the recovered promise's outcome, or by the error it threw |
| Replace.ReplaceFailIgnoresTheError | Sources/Promise+Replace.swift:59-69 | the outcome after a failure does not depend on the error |
| Replace.ChainKeepsFulfilment | Sources/Promise+Replace.swift:37-47 | a fulfilled promise passes unchanged through any chain of `replace` |
| Replace.FirstFulfilmentWins | Sources/Promise+Replace.swift:37-47 | a chain of recoveries ends with the first fulfilment, or with the last error if all fail |
| SuccessPromises.FulfillSuccess | Sources/Success.swift:16-18 | fulfils with the `Success` value, as `fulfill` does |
| SuccessPromises.ThenSuccess | Sources/Success.swift:21-24 | adds one callback calling the block on success only, and returns the same promise |
| SuccessPromises.ThenFlatMapSuccess | Sources/Success.swift:27-37 | a fresh pending promise; `self` gains the flat-map callback of the argument-less closure |
| SuccessPromises.ThenMapSuccess | Sources/Success.swift:40-48 | a fresh pending promise; `self` gains the map callback of the argument-less closure |
| SuccessPromises.ThenFlatMapSuccessSettlesAs | Sources/Success.swift:27-37 | the chained promise settles as the closure's promise, or with its thrown error; an upstream error passes |
| SuccessPromises.ThenMapSuccessSettlesAs | Sources/Success.swift:40-48 | the chained promise is fulfilled with the closure's value, or rejected with the thrown or upstream error |
| Groups.FirstFailureAt | Sources/Promise+Zip.swift:56-57 | the first failing arrival decides the error a join sees |
| ZipJoin.ZipGroup.constructor | Sources/Promise+Zip.swift:16-19 | an empty group with one empty slot per input |
| ZipJoin.ZipGroup.Enter | Sources/Promise+Zip.swift:55 | the count goes up by one |
| ZipJoin.ZipGroup.Fulfilled | Sources/Promise+Zip.swift:21-22 | a success fills the input's slot, and the group leaves |
| ZipJoin.ZipGroup.Rejected | Sources/Promise+Zip.swift:21-22 | a failure rejects the zipped promise, and the group leaves |
| ZipJoin.ZipGroup.Leave | Sources/Promise+Zip.swift:24-27 | the count goes down; at zero the notify block runs |
| ZipJoin.ZipGroup.Notify | Sources/Promise+Zip.swift:24-27 | with every slot filled the zipped promise is fulfilled with the tuple in argument order; otherwise nothing happens |
| ZipJoin.ZipProgress | Sources/Promise+Zip.swift:21-27 | after any arrivals the slots hold each input's value and the result is the first error, or the tuple once all are in |
| ZipJoin.SlotsOfOrder | Sources/Promise+Zip.swift:21-22 | a slot holds its input's value exactly when that input has arrived |
| ZipJoin.ZipFulfilsInArgumentOrder | Sources/Promise+Zip.swift:24-27 | whatever order the inputs settle in, if all succeed the tuple is in argument order |
| ZipJoin.ZipRejectsWithFirstError | Sources/Promise+Zip.swift:21-22 | the first input to fail decides the rejection, whatever arrives later |
| ZipJoin.ZipWaitsForEveryInput | Sources/Promise+Zip.swift:24-27 | while an input is missing and none failed, the zipped promise stays pending |
| Zip.Append | Sources/Promise+Zip.swift:53-58 | enters the group and gives the input exactly its two callbacks, success then failure |
| Zip.InputArrivesOnce | Sources/Promise+Zip.swift:56-57 | of an input's two callbacks exactly one reacts to its outcome, as that input's arrival |
| Zip.AppendAll | Sources/Promise+Zip.swift:41-43 | the `group.append` lines, one per input in argument order: the group counts every input, and every input receives the callbacks of each position it holds and nothing else |
| Zip.Zip2 | Sources/Promise+Zip.swift:13-29 | a fresh pending promise, a group waiting for two inputs, and both inputs registered |
| Zip.Zip3 | Sources/Promise+Zip.swift:32-50 | a fresh pending promise, a group waiting for three inputs, and all three registered |
| Zip.DistinctInputsGetTheirSlot | Sources/Promise+Zip.swift:21-22 | distinct inputs each receive exactly the callbacks of their own position |
| Joins.RegistrationsOfOnce | Sources/Promise+Zip.swift:53-58 | a promise passed once receives exactly its position's callbacks |
| Joins.NothingAppended | Sources/Promise+Zip.swift:16-19 | before the first `append`, no input has received anything |
| Joins.AppendStep | Sources/Promise+Zip.swift:53-58 | one `append` extends the input in that position by its two callbacks and leaves every other input as it was |
| FlattenJoin.FlattenGroup.constructor | Sources/Promise+Flatten.swift:31-33 | an empty group with no value collected |
| FlattenJoin.FlattenGroup.Enter | Sources/Promise+Flatten.swift:50 | the count goes up by one |
| FlattenJoin.FlattenGroup.Fulfilled | Sources/Promise+Flatten.swift:36 | a success appends its value, and the group leaves |
| FlattenJoin.FlattenGroup.Rejected | Sources/Promise+Flatten.swift:36 | a failure rejects the flattened promise, and the group leaves |
| FlattenJoin.FlattenGroup.Leave | Sources/Promise+Flatten.swift:39-42 | the count goes down; at zero the notify block runs |
| FlattenJoin.FlattenGroup.NotifyWhenEmpty | Sources/Promise+Flatten.swift:39-42 | with nothing entered the notify block runs at once; otherwise the promise is untouched |
| FlattenJoin.FlattenGroup.Notify | Sources/Promise+Flatten.swift:39-42 | with as many values as inputs the promise is fulfilled with the array; otherwise nothing happens |
| FlattenJoin.FlattenProgress | Sources/Promise+Flatten.swift:33-42 | after any arrivals the values are the successes in arrival order and the result is the first error, or the array once all are in |
| FlattenJoin.FlattenOfNothing | Sources/Promise+Flatten.swift:39-41 | flattening no promise fulfils with the empty array |
| FlattenJoin.FlattenFulfilsInSettlementOrder | Sources/Promise+Flatten.swift:35-41 | if all inputs succeed, the array lists their values in the order they settled |
| FlattenJoin.SuccessValuesOfOrder | Sources/Promise+Flatten.swift:36 | the collected values are the inputs' values in arrival order |
| FlattenJoin.FlattenFollowsSettlementNotInputOrder | Sources/Promise+Flatten.swift:36 | illustration of `SuccessValuesOfOrder`, not a further property: two inputs settling in reverse order come out reversed |
| FlattenJoin.FlattenedValuesComeFromInputs | Sources/Promise+Flatten.swift:36 | every collected value is the value of some input |
| FlattenJoin.FlattenRejectsWithFirstError | Sources/Promise+Flatten.swift:36-40 | the first input to fail decides the rejection, whatever arrives later |
| FlattenJoin.FlattenWaitsForEveryInput | Sources/Promise+Flatten.swift:39-41 | while an input is missing and none failed, the flattened promise stays pending |
| Flatten.Append | Sources/Promise+Flatten.swift:48-53 | enters the group and gives the input exactly its two callbacks, success then failure |
| Flatten.InputArrivesOnce | Sources/Promise+Flatten.swift:51-52 | of an input's two callbacks exactly one reacts to its outcome, as that input's arrival |
| Flatten.AppendAll | Sources/Promise+Flatten.swift:35-37 | the group counts every input, and every input receives the two callbacks once per position it holds |
| Flatten.Flatten | Sources/Promise+Flatten.swift:28-46 | a fresh promise on the queue and a group waiting for every input; with no input the promise is fulfilled with the empty array |
| Flatten.DistinctInputsJoinOnce | Sources/Promise+Flatten.swift:35-37 | distinct inputs each receive the two callbacks exactly once |

## Left out

- Threads and locking. The model is sequential. Dispatch queues are FIFO
  lists of blocks, and the model has one list per promise. The ordering
  between different queues, and blocks the library does not hand to a
  promise's own queue, are not modelled.
- `DispatchQueue` identity. A queue is only a name.
- Outcomes.Cast: Swift's `as? ErrorType` is an exact comparison of type
  tags. A cast to a superclass or to a protocol the error conforms to is
  not modelled, so an error of a subtype does not match a catch of its
  supertype.
- Catches.CatchOn: the `on:` queue argument is accepted and not used.
  Registration is the promise's own `addCallbacks`, which schedules on the
  promise's queue. The callback's run on another queue is not modelled.
- Catches.CatchOfType: the `on:` queue argument is not used, as in the
  source, which forwards to `catch` without it.
- Catches.CatchOfValue: the `on:` queue argument is not used, as in the
  source.
- Replace.Replace: the `on:` queue the source passes to `addCallbacks` and
  `then` is not modelled.
  - The registration on `self` happens at once. In the source it happens
    when the main queue runs the work of `Promise(work)`.
- Replace.ReplaceFail: as `Replace.Replace`.
- Zip.Zip2: the `on:` queue of `group.notify` is not modelled.
  - The notify block runs inside the last `leave`, not as a later block.
- Zip.Zip3: as `Zip.Zip2`.
- Flatten.Flatten: the work that `Promise(work, on: queue)` schedules runs
  at once. With no input, the promise is therefore already fulfilled on
  return instead of after a block. The notify block runs inside the last
  `leave`.
- The three-argument `addCallbacks(_:_:_:)` and `then(on:_:_:)` that
  Promise+Catch.swift and Promise+Replace.swift call are not part of this
  model; they are taken to be `addCallbacks` on the promise's own queue.
- Swift generics and tuple types are erased to one `Value` datatype. Zipped
  results are `Tuple` values, flattened ones `Array` values. Types are not
  checked.
- Caller closures with side effects (`then`, `catch`, `finally` blocks) are
  known only by a number, and a call is recorded as an invocation of that
  number. Closures that compute (`thenMap`, `thenFlatMap`, `replace`) are
  pure Dafny functions.
- The outcome of a promise a closure returns is an input of the
  settlement lemmas (`later`), because it depends on code outside the
  library.
- The legacy version's `then`, which VCPromises/Source/Promise.swift calls,
  is not part of this model. Its `Catch` registers through `AddCallbacks`
  directly.
- The internals of `DispatchGroup` are modelled only as the counter that
  `enter`/`leave` change and one notify block.
- Memory management, retain cycles and `@discardableResult` have no
  counterpart.

## Findings

| source | as written | input that shows it | evidently intended | confidence | as-written member | corrected member |
|---|---|---|---|---|---|---|
| VCPromises/Source/Promise.swift:87-98 | `fireIfCompleted` calls only `callbacks.first`, so every other waiting callback is dropped | two callbacks registered on a pending promise, then `fulfill(v)`: only the first is called | every waiting callback is called once with the outcome, as in Sources/Promise.swift:92-98 | high, not executed | LegacyPromises.SecondWaiterNeverFires | Promises.Promise.FireIfCompleted |
