# Promise engine of `then`

This project models the promise class `Promise<T>` of the Swift library `then` and proves properties of it. A promise is a cell in one of three states: Pending, Fulfilled or Rejected. It holds an optional value, an optional error, an optional progress reading, two start flags, and four single reaction slots: success, failure, progress and finally. Chain operations create child promises whose callbacks read the parent's state and, while the parent is pending, overwrite the parent's slots:

- `then` with a value transform;
- `then` with a promise-returning transform, which is flatMap;
- `then(p:)`;
- `onError`.

A child also inherits the root producer's start function and the flag that says whether it has run. The public `then` and `onError` run a start preamble before registering, and the preamble sets that flag on the promise it runs on. In a chain built with `then`/`onError` alone, the first consumer therefore starts the root producer, and later consumers do not start it again (`RootStartsOnce`). The `registerThen` and `registerOnError` forms skip the preamble, and a child copies its parent's flag as it is at that moment. So a promise reached through `registerThen` from a root nobody has started still carries a cleared flag. Each `then` on such a promise runs the root producer again (`MapStepFacts`, `TryStartInitialGuard`).

The project has three modules:

- `PromiseSpec` (`promise_spec.dfy`) is the store as a value. A `World` is the sequence of all promises plus a log of the user code that ran: producers started, blocks called, finally blocks, progress handlers. Each Swift method is a function from world to world. Each callback slot is a descriptor datatype that says what the closure would do. Every function keeps the store well-formed (`Valid`) and only grows it (`Grows`).
- `PromiseEngine` (`promise_engine.dfy`) is the imperative engine. Class `Promises` holds the fields `nodes` and `log` and updates them in place, in the order the Swift methods do. Each method is proved to leave exactly the world that the `PromiseSpec` function of the same role computes.
- `PromiseProperties` (`promise_properties.dfy`) holds what the library promises about those functions, stated on whole worlds. It covers:
  - settlement;
  - the three chain operations in each state of the parent;
  - flattening through a nested promise;
  - settling the root of a chain of map `then` and `onError`, which settles every promise of the chain with the composed outcome;
  - the lazy start protocol, including that the root producer runs exactly once for any chain of map or flatMap `then` and `onError`;
  - `finally` and progress.

The settlement methods do not check for Pending, so a second `resolve` or `reject` overwrites the first. A reject after a resolve leaves both the value and the error set. The model follows the code here. So a promise is not settled at most once, and it can hold a value and an error at the same time (`ResolveTwiceOverwrites`, `RejectAfterResolveKeepsValue`).

`onError` over a successful parent rejects the child with the fixed error `NSError(domain: "", code: 123)`. It does not pass the value through. The model keeps that behaviour, with `Synthetic` standing for the fixed error.

## Model

| member | source | states |
|---|---|---|
| PromiseSpec.Create | Source/Promise.swift:41-47 | the new promise is appended at the end of the store, unstarted and Pending, with every slot empty; every earlier promise is unchanged and nothing runs |
| PromiseSpec.Start | Source/Promise.swift:49-56 | starting keeps the store well-formed and only grows it and the log (the run itself: `StartIsUnguarded`, `StartIfNeededGuard`) |
| PromiseSpec.Launch | Source/Promise.swift:51-55 | running the stored callback keeps the store well-formed and only grows it and the log |
| PromiseSpec.Resolve | Source/Promise.swift:211-216 | resolving keeps the store well-formed and only appends to it and to the log |
| PromiseSpec.Reject | Source/Promise.swift:218-223 | rejecting keeps the store well-formed and only appends to it and to the log |
| PromiseSpec.FireFinally | Source/Promise.swift:215 | invoking the finally slot changes no promise; the log gains the block's run exactly when a block is stored |
| PromiseSpec.FireSuccess | Source/Promise.swift:214 | invoking the success slot keeps the store well-formed and only grows it |
| PromiseSpec.FireFailure | Source/Promise.swift:221 | invoking the failure slot keeps the store well-formed and only grows it |
| PromiseSpec.ApplyMap | Source/Promise.swift:70 | calling a map block keeps the store well-formed and only grows it |
| PromiseSpec.ApplyRecover | Source/Promise.swift:139 | calling an error block keeps the store well-formed and only grows it |
| PromiseSpec.DispatchMap | Source/Promise.swift:67-79 | the map child's callback keeps the store well-formed and only grows it |
| PromiseSpec.DispatchFlat | Source/Promise.swift:94-106 | the flatMap child's callback keeps the store well-formed and only grows it |
| PromiseSpec.DispatchRecover | Source/Promise.swift:132-150 | the onError child's callback keeps the store well-formed and only grows it |
| PromiseSpec.RegisterNextPromise | Source/Promise.swift:204-209 | flattening keeps the store well-formed and only grows it |
| PromiseSpec.TryStartInitial | Source/Promise.swift:187-192 | afterwards `initialPromiseStarted` is set |
| PromiseSpec.StartIfNeeded | Source/Promise.swift:194-196 | keeps the store well-formed and only grows it |
| PromiseSpec.PassAlong | Source/Promise.swift:176-185 | the child inherits the parent's root trigger, or the parent itself when it has none, and the parent's start flag; no other field or promise changes |
| PromiseSpec.Then | Source/Promise.swift:60-64 | returns a promise of the store, which it keeps well-formed and only grows |
| PromiseSpec.RegisterThen | Source/Promise.swift:66-83 | the child is the next fresh index |
| PromiseSpec.ThenFlat | Source/Promise.swift:87-91 | returns a promise of the store, which it keeps well-formed and only grows |
| PromiseSpec.RegisterThenFlat | Source/Promise.swift:93-110 | the child is the next fresh index |
| PromiseSpec.ThenPromise | Source/Promise.swift:114-116 | `then(p:)` is flatMap with a block that always yields `p`; returns a promise of the store |
| PromiseSpec.RegisterThenPromise | Source/Promise.swift:118-120 | as above for `registerThen(p:)`; the child is the next fresh index |
| PromiseSpec.OnError | Source/Promise.swift:125-129 | returns a promise of the store, which it keeps well-formed and only grows |
| PromiseSpec.RegisterOnError | Source/Promise.swift:131-154 | the child is the next fresh index |
| PromiseSpec.Finally | Source/Promise.swift:158-165 | keeps the store well-formed and only grows it |
| PromiseSpec.Progress | Source/Promise.swift:169-172 | only the promise's progress slot changes, to the new handler; the log and every other promise are unchanged |
| PromiseSpec.ProgressPromise | Source/Promise.swift:225-228 | along the forwarding chain only `progress` fields change, never a state, outcome or slot; every new log entry is a progress tick carrying `p` |
| PromiseEngine.Promises.constructor | Source/Promise.swift:19-39 | the store starts empty |
| PromiseEngine.Promises.Create | Source/Promise.swift:41-47 | the store afterwards is `PromiseSpec.Create` of the store before |
| PromiseEngine.Promises.Start | Source/Promise.swift:49-56 | the in-place updates leave exactly `PromiseSpec.Start` of the old store |
| PromiseEngine.Promises.Launch | Source/Promise.swift:51-55 | running the stored callback in place leaves exactly `PromiseSpec.Launch` of the old store |
| PromiseEngine.Promises.ResolvePromise | Source/Promise.swift:211-216 | leaves exactly `PromiseSpec.Resolve` of the old store |
| PromiseEngine.Promises.RejectPromise | Source/Promise.swift:218-223 | leaves exactly `PromiseSpec.Reject` of the old store |
| PromiseEngine.Promises.ProgressPromise | Source/Promise.swift:225-228 | leaves exactly `PromiseSpec.ProgressPromise` of the old store |
| PromiseEngine.Promises.FireFinally | Source/Promise.swift:215 | leaves exactly `PromiseSpec.FireFinally` of the old store |
| PromiseEngine.Promises.FireSuccess | Source/Promise.swift:214 | leaves exactly `PromiseSpec.FireSuccess` of the old store |
| PromiseEngine.Promises.FireFailure | Source/Promise.swift:221 | leaves exactly `PromiseSpec.FireFailure` of the old store |
| PromiseEngine.Promises.ApplyMap | Source/Promise.swift:70 | store and result are exactly those of `PromiseSpec.ApplyMap` |
| PromiseEngine.Promises.ApplyRecover | Source/Promise.swift:139 | store and result are exactly those of `PromiseSpec.ApplyRecover` |
| PromiseEngine.Promises.RegisterSuccess | Source/Promise.swift:198-202 | only the parent's success slot changes, to resolve the child with the block's result |
| PromiseEngine.Promises.DispatchMap | Source/Promise.swift:67-79 | leaves exactly `PromiseSpec.DispatchMap` of the old store |
| PromiseEngine.Promises.DispatchFlat | Source/Promise.swift:94-106 | leaves exactly `PromiseSpec.DispatchFlat` of the old store |
| PromiseEngine.Promises.DispatchRecover | Source/Promise.swift:132-150 | leaves exactly `PromiseSpec.DispatchRecover` of the old store |
| PromiseEngine.Promises.RegisterNextPromise | Source/Promise.swift:204-209 | leaves exactly `PromiseSpec.RegisterNextPromise` of the old store |
| PromiseEngine.Promises.TryStartInitialPromise | Source/Promise.swift:187-192 | leaves exactly `PromiseSpec.TryStartInitial` of the old store |
| PromiseEngine.Promises.StartPromiseIfNeeded | Source/Promise.swift:194-196 | leaves exactly `PromiseSpec.StartIfNeeded` of the old store |
| PromiseEngine.Promises.PassAlong | Source/Promise.swift:176-185 | leaves exactly `PromiseSpec.PassAlong` of the old store |
| PromiseEngine.Promises.Then | Source/Promise.swift:60-64 | store and child are exactly those of `PromiseSpec.Then` |
| PromiseEngine.Promises.RegisterThen | Source/Promise.swift:66-83 | store and child are exactly those of `PromiseSpec.RegisterThen` |
| PromiseEngine.Promises.ThenFlat | Source/Promise.swift:87-91 | store and child are exactly those of `PromiseSpec.ThenFlat` |
| PromiseEngine.Promises.RegisterThenFlat | Source/Promise.swift:93-110 | store and child are exactly those of `PromiseSpec.RegisterThenFlat` |
| PromiseEngine.Promises.ThenPromise | Source/Promise.swift:114-116 | store and child are exactly those of `PromiseSpec.ThenPromise` |
| PromiseEngine.Promises.RegisterThenPromise | Source/Promise.swift:118-120 | store and child are exactly those of `PromiseSpec.RegisterThenPromise` |
| PromiseEngine.Promises.OnError | Source/Promise.swift:125-129 | store and child are exactly those of `PromiseSpec.OnError` |
| PromiseEngine.Promises.RegisterOnError | Source/Promise.swift:131-154 | store and child are exactly those of `PromiseSpec.RegisterOnError` |
| PromiseEngine.Promises.Finally | Source/Promise.swift:158-165 | returns the same promise; leaves exactly `PromiseSpec.Finally` of the old store |
| PromiseEngine.Promises.Progress | Source/Promise.swift:169-172 | returns the same promise; leaves exactly `PromiseSpec.Progress` of the old store |
| PromiseProperties.ResolveLeaf | Source/Promise.swift:211-216 | with no success reaction, resolving sets Fulfilled and the value and leaves error, progress and slots as they were; then the finally block runs |
| PromiseProperties.RejectLeaf | Source/Promise.swift:218-223 | with no failure reaction, rejecting sets Rejected and the error and leaves value, progress and slots as they were; then the finally block runs |
| PromiseProperties.ResolveTwiceOverwrites | Source/Promise.swift:211-216 | there is no Pending guard: a second resolve overwrites the value and runs the finally block a second time |
| PromiseProperties.RejectAfterResolveKeepsValue | Source/Promise.swift:211-223 | reject after resolve leaves a Rejected promise that still holds the earlier value, so value and error are both set |
| PromiseProperties.RegisterThenOutcome | Source/Promise.swift:66-83 | the exact store after a map `then`, in each parent state. Fulfilled: the child is Fulfilled with `f(value)`. Rejected: the child is Rejected with the same error and `f` never runs. Pending: the parent's slots resolve and reject the child. In every state the parent's progress slot forwards to the child |
| PromiseProperties.RegisterThenFulfilled | Source/Promise.swift:66-82 | map over a Fulfilled parent: the exact store, with the child Fulfilled with `f(value)` and the block's one run logged |
| PromiseProperties.RegisterThenRejected | Source/Promise.swift:66-82 | map over a Rejected parent: the exact store, with the child Rejected with the parent's error and no block run logged |
| PromiseProperties.RegisterThenPending | Source/Promise.swift:66-82 | map over a Pending parent: the exact store, with the success, failure and progress slots pointing at the Pending child |
| PromiseProperties.MapStepFacts | Source/Promise.swift:66-83 | after a map `registerThen` the child is started and carries the parent's root trigger and start flag. The log gains the child's start, followed by the block's run if and only if the parent is already Fulfilled |
| PromiseProperties.ResolveThroughMap | Source/Promise.swift:198-202 | a later resolve with `v` of a parent wired by map fulfils the child with `f(v)`; the child's finally block runs before the parent's |
| PromiseProperties.RejectThroughForward | Source/Promise.swift:76 | a later reject with `e` of a parent wired by map rejects the child with the same `e` |
| PromiseProperties.MapOnPendingParent | Source/Promise.swift:66-80 | map over a pending parent, end to end: a later resolve fulfils the child with `f(v)`; a later reject rejects it with `e` and no block runs |
| PromiseProperties.RegisterOnErrorOutcome | Source/Promise.swift:131-154 | the exact store after `onError`, in each parent state. Rejected: the child is Fulfilled with `h(error)`. Fulfilled: the child is Rejected with the synthetic error and `h` never runs. Pending: the recovery and the synthetic rejection are installed. The progress slot forwards to the child |
| PromiseProperties.RegisterOnErrorFulfilled | Source/Promise.swift:131-153 | onError over a Fulfilled parent: the exact store, with the child Rejected with the synthetic error and no recovery run |
| PromiseProperties.RegisterOnErrorRejected | Source/Promise.swift:131-153 | onError over a Rejected parent: the exact store, with the child Fulfilled with `h(error)` and the block's one run logged |
| PromiseProperties.RegisterOnErrorPending | Source/Promise.swift:131-153 | onError over a Pending parent: the exact store, with the recovery and the synthetic rejection installed and progress forwarded |
| PromiseProperties.RecoverStepFacts | Source/Promise.swift:131-154 | after `registerOnError` the child is started and carries the parent's root trigger and start flag. The log gains the child's start, followed by the block's run if and only if the parent is already Rejected |
| PromiseProperties.RejectThroughRecover | Source/Promise.swift:142-144 | a later failure `e` of the parent fulfils the onError child with `h(e)` |
| PromiseProperties.ResolveThroughSynthetic | Source/Promise.swift:145-147 | a later success of the parent rejects the onError child with the synthetic error, whatever the value |
| PromiseProperties.OnErrorOnPendingParent | Source/Promise.swift:131-151 | onError over a pending parent, end to end: success leads to a synthetic rejection with no value; failure `e` leads to Fulfilled with `h(e)` |
| PromiseProperties.ThenOnBooted | Source/Promise.swift:60-64 | on a promise whose two start flags are set, `then` is just `registerThen` |
| PromiseProperties.OnErrorOnBooted | Source/Promise.swift:125-129 | on a promise whose two start flags are set, `onError` is just `registerOnError` |
| PromiseProperties.ResolveIntoRegistered | Source/Promise.swift:206-207 | `then { x in resolve(x) }` on a Fulfilled nested promise: the exact store. The flat child is Fulfilled with the nested value. The map node is Fulfilled with `()`. The nested promise forwards progress to the map node. The log gains the map node's start, its block's run and the child's finally |
| PromiseProperties.NestedMapStageFulfilled | Source/Promise.swift:206-207 | on a started, Fulfilled nested promise, the map stage fulfils the flat child with the nested value. The map node is started, Fulfilled and has no reactions. The nested promise's progress slot now forwards to the map node |
| PromiseProperties.NestedMapStageRejected | Source/Promise.swift:206-207 | on a started, Rejected nested promise, the map node takes its error, the block never runs, and no earlier promise but the nested one changes |
| PromiseProperties.RejectIntoRegistered | Source/Promise.swift:208 | `onError(reject)` on a Rejected map node: the exact store. The flat child is Rejected with that error. The onError node is Fulfilled with `()`. The map node forwards progress to the onError node |
| PromiseProperties.NestedErrorStageFulfilled | Source/Promise.swift:208 | over a Fulfilled map node the onError stage rejects its own node with the synthetic error; no earlier promise but the map node changes, and `reject` never runs |
| PromiseProperties.NestedErrorStageRejected | Source/Promise.swift:208 | over a Rejected map node the onError stage rejects the flat child with that error; no other earlier promise but the map node changes |
| PromiseProperties.ForwardFulfilledNested | Source/Promise.swift:204-209 | a started, Fulfilled nested promise fulfils the flat child with its value. The nested promise's progress slot forwards to the map node. The exact log is given |
| PromiseProperties.ForwardRejectedNested | Source/Promise.swift:204-209 | a started, Rejected nested promise rejects the flat child with its error; exact log |
| PromiseProperties.ForwardSettledNested | Source/Promise.swift:204-209 | forwarding from a settled nested promise: the flat child takes its value or its error; two nodes are appended; no other earlier promise changes; the exact log is given |
| PromiseProperties.PreambleOnFreshRoot | Source/Promise.swift:60-62 | on a fresh root, the start preamble runs the producer once and applies its behaviour |
| PromiseProperties.ForwardNestedAfterPreamble | Source/Promise.swift:204-209 | once the preamble has set both flags, forwarding is the same from either world |
| PromiseProperties.PendingMapStage | Source/Promise.swift:206-207 | over a pending nested promise, `then { resolve }` wires its success and failure to a new pending map node; the log gains only that node's start |
| PromiseProperties.PendingErrorStage | Source/Promise.swift:208 | over a pending map node, `.onError(reject)` installs the synthetic rejection and the recovery that rejects the flat child; the log gains only the onError node's start |
| PromiseProperties.ForwardPendingNested | Source/Promise.swift:204-209 | forwarding from a pending nested promise installs the reactions and leaves every other earlier promise unchanged. It appends two nodes and logs only their starts |
| PromiseProperties.RejectThroughRejectInto | Source/Promise.swift:208 | a failure of the map node rejects the flat child with the same error |
| PromiseProperties.NestedResolvesLater | Source/Promise.swift:206-207 | when the wired nested promise later resolves with `x`, the flat child is Fulfilled with `x` |
| PromiseProperties.NestedRejectsLater | Source/Promise.swift:204-209 | when the wired nested promise later rejects with `e`, the flat child is Rejected with `e` |
| PromiseProperties.NextPromiseFromBlock | Source/Promise.swift:204-209 | `registerNextPromise` runs the block, then creates and starts the nested promise. If it settles at once, the child takes its value or error. If it defers, the child is untouched and wired to it |
| PromiseProperties.NextPromiseSettles | Source/Promise.swift:204-209 | when the block's promise settles at once, the flat child takes its value or error and no other earlier promise changes |
| PromiseProperties.NextPromiseSettlesLog | Source/Promise.swift:204-209 | when the block's promise settles at once, the exact log: the block, the nested promise's start, the internal nodes' starts and blocks, and the child's finally |
| PromiseProperties.NextPromiseDefers | Source/Promise.swift:204-209 | when the block's promise defers, no earlier promise changes and the nested promise is wired to the flat child |
| PromiseProperties.NextPromiseDefersLog | Source/Promise.swift:204-209 | when the block's promise defers, the log gains exactly the block's run and the starts of the nested promise and its two internal nodes |
| PromiseProperties.NextPromiseStartsOnlyNew | Source/Promise.swift:204-209 | with a user block, every start `registerNextPromise` logs is of a node it creates |
| PromiseProperties.NextPromiseKeepsFlags | Source/Promise.swift:204-209 | with a user block, `registerNextPromise` leaves the start flags of the flat child and of every other old promise as they were |
| PromiseProperties.PreambleOnPrimed | Source/Promise.swift:187-196 | on a primed promise (started, and either its inherited root start has run or it has none, as for a root started by `start()` or `finally`) the start preamble runs nothing and only sets `initialPromiseStarted` |
| PromiseProperties.NextPromiseReused | Source/Promise.swift:114-120 | with `then(p:)` over a primed, settled `p`, the child takes `p`'s value or error |
| PromiseProperties.NextPromisePendingReused | Source/Promise.swift:114-120 | with `then(p:)` over a primed, still Pending `p`, the child is untouched and wired to settle when `p` does; the log gains the block's run and the starts of the two internal nodes |
| PromiseProperties.NextPromiseFreshRoot | Source/Promise.swift:114-120 | with `then(p:)` over a root `p` nobody has started, the block runs and then `p`'s producer is started. The child takes `p`'s outcome when the producer settles at once; otherwise it is untouched and wired to `p` |
| PromiseProperties.PassAlongKeepsWired | Source/Promise.swift:176-185 | handing on the root trigger changes no reaction slot, so a forwarding wiring survives it |
| PromiseProperties.ThenPromiseStartsFreshRoot | Source/Promise.swift:118-120 | `registerThen(p:)` over a Fulfilled parent with a fresh root `p`: `p`'s producer runs during the call, and the new child takes `p`'s outcome, or stays Pending wired to `p` when it defers |
| PromiseProperties.ThenSelfRewiresProgress | Source/Promise.swift:114-120 | `then(p: self)` on a started, Fulfilled promise takes over the promise's own progress slot for the internal map node, so an earlier progress handler stops receiving ticks |
| PromiseProperties.RegisterThenFlatOutcome | Source/Promise.swift:93-110 | flatMap over a Rejected parent rejects the child with its error and never calls the block; over a Pending parent it installs the flattening reactions; neither touches the parent's progress slot |
| PromiseProperties.RegisterThenFlatOnFulfilled | Source/Promise.swift:93-110 | flatMap over a Fulfilled parent is `registerNextPromise` on the parent's value inside the started child |
| PromiseProperties.FlatOnFulfilledParent | Source/Promise.swift:96-97 | flatMap over a Fulfilled parent: the child takes the nested promise's value or error when that promise settles at once, and stays Pending when it defers |
| PromiseProperties.FlatDeferWiring | Source/Promise.swift:204-209 | when the nested promise defers, it is wired to the flat child |
| PromiseProperties.FlatChildWired | Source/Promise.swift:204-209 | the flat child, once handed the root trigger, keeps no reactions of its own and is wired to the deferred nested promise |
| PromiseProperties.FlatWaitsForNested | Source/Promise.swift:204-209 | flatMap over a Fulfilled parent whose block defers: a later `resolve(x)` of the nested promise makes the flat child Fulfilled with `x` |
| PromiseProperties.FlatFailsWithNested | Source/Promise.swift:204-209 | flatMap over a Fulfilled parent whose block defers: a later `reject(e)` of the nested promise makes the flat child Rejected with `e` |
| PromiseProperties.WiredChildFollows | Source/Promise.swift:206-208 | a flat child wired to a nested promise is Fulfilled with that promise's later value, or Rejected with its later error |
| PromiseProperties.FlatOnPendingParent | Source/Promise.swift:100-103 | flatMap over a Pending parent, then a later `resolve(v)`: the block runs first. The child takes the nested promise's value or error when it settles at once; otherwise it stays Pending with no reactions of its own, wired to the nested promise |
| PromiseProperties.FlatOnPendingParentRejected | Source/Promise.swift:104 | flatMap over a Pending parent, then a later `reject(e)`: the child is Rejected with `e`, and the log gains only the parent's finally, so the block never runs |
| PromiseProperties.FlatPendingShape | Source/Promise.swift:100-104 | the exact reactions flatMap leaves on a Pending parent and its new child: the parent flattens into the child on success and rejects it on failure; the child is Pending with no reactions; the log gains only the child's start |
| PromiseProperties.ResolveThroughFlattening | Source/Promise.swift:211-216 | resolving a parent whose success slot flattens into the newest promise runs the block first; that promise then takes the nested outcome, or is untouched and wired to the nested promise |
| PromiseProperties.ResolveFlatteningUnfold | Source/Promise.swift:211-216 | resolving through a flattening slot is: set the state and value, run `registerNextPromise`, then the finally block |
| PromiseProperties.FlattenedChildFollows | Source/Promise.swift:101-103 | once the block has deferred, the flat child is later Fulfilled with the nested promise's value, or Rejected with its error |
| PromiseProperties.Mark | Source/Promise.swift:211-223 | a settled promise holds the outcome and keeps its reaction slots |
| PromiseProperties.Settle | Source/Promise.swift:211-223 | resolving with a value or rejecting with an error keeps the store well-formed and only grows it |
| PromiseProperties.SettleStep | Source/Promise.swift:211-223 | settling a promise whose slots are those of a map `then` or `onError` child: it is marked settled, the block runs exactly when that step has one for the outcome, the child is settled with the step's outcome, then the finally block runs |
| PromiseProperties.CascadeLeaf | Source/Promise.swift:211-223 | settling a promise with no reactions marks it settled and changes no other promise |
| PromiseProperties.SettleHead | Source/Promise.swift:211-223 | settling the head of a chain equals settling the next promise from the store where only the head is marked, and the rest is still a chain |
| PromiseProperties.CascadeHead | Source/Promise.swift:211-223 | the head marked settled plus the rest settled as the later steps say make the whole chain settled as the steps say |
| PromiseProperties.SettleCascades | Source/Promise.swift:211-223 | settling the head of a chain of map `then` and `onError` children settles every promise of the chain with what the steps before it make of the outcome, and changes no promise outside the chain |
| PromiseProperties.StepExtendsLinked | Source/Promise.swift:66-83 | a map `then` or `onError` on the started, Pending end of a chain appends one started, Pending child and extends the chain by it |
| PromiseProperties.ChainStep | Source/Promise.swift:60-64 | the first step of a chain build extends the chain by the new promise, from which the rest is built |
| PromiseProperties.ChainLinks | Source/Promise.swift:60-64 | building map `then` and `onError` steps on the started, Pending end of a chain extends it by consecutive new promises |
| PromiseProperties.DeferredRootStarts | Source/Promise.swift:60-62 | the first step on a fresh deferred root starts its producer, which does nothing, and the chain is then built on the started root |
| PromiseProperties.DeferredChainLinked | Source/Promise.swift:60-83 | from a fresh deferred root, map `then` and `onError` steps build a chain over consecutive ids ending at the returned promise |
| PromiseProperties.SettleSpan | Source/Promise.swift:211-223 | settling the head `n` of a chain of consecutive ids settles promise `n + i` with what the first `i` steps make of the outcome |
| PromiseProperties.ChainFollowsRoot | Source/Promise.swift:211-223 | a deferred root followed by any map `then` and `onError` steps, then a later `resolve(v)` or `reject(e)` of the root: every promise of the chain holds the composed outcome of the steps before it |
| PromiseProperties.FailureSkipsMaps | Source/Promise.swift:72-76 | map steps pass an error on unchanged |
| PromiseProperties.ChainOutcomeSnoc | Source/Promise.swift:66-83 | the outcome after one more step is that step applied to the outcome so far |
| PromiseProperties.RejectReachesFirstRecovery | Source/Promise.swift:131-154 | a later `reject(e)` of the root rejects it and every map node with `e` up to the first `onError`, whose child is Fulfilled with the block's result on `e` |
| PromiseProperties.StartIsUnguarded | Source/Promise.swift:49-56 | `start` has no guard: every call runs the producer again |
| PromiseProperties.StartIfNeededGuard | Source/Promise.swift:194-196 | the producer runs exactly when `promiseStarted` is false; otherwise nothing changes |
| PromiseProperties.TryStartInitialGuard | Source/Promise.swift:187-192 | the inherited root start runs only while `initialPromiseStarted` is false, and the flag is then set; with no inherited start, only the flag changes |
| PromiseProperties.LaterStartsKeepCount | Source/Promise.swift:187-196 | starts of promises created later do not change how often an older promise has been started |
| PromiseProperties.StepKeepsRootCount | Source/Promise.swift:176-185 | a map `then`, flatMap `then` or `onError` step on an already started chain does not start the root again, and passes the root trigger on to the new child |
| PromiseProperties.FirstMapStartsRoot | Source/Promise.swift:60-63 | the first `then` on a fresh root starts the root producer exactly once |
| PromiseProperties.FirstRecoverStartsRoot | Source/Promise.swift:125-128 | the first `onError` on a fresh root starts the root producer exactly once |
| PromiseProperties.FirstFlatStartsRoot | Source/Promise.swift:87-91 | the first flatMap `then` on a fresh root starts the root producer exactly once |
| PromiseProperties.ThenFlatOnBooted | Source/Promise.swift:87-91 | on a promise whose two start flags are set, flatMap `then` is just `registerThen` |
| PromiseProperties.FlatStepFacts | Source/Promise.swift:93-110 | after a flatMap `registerThen` the child is started and carries the parent's root trigger and start flag. The log gains the child's start first, and every later start is of a promise the call created |
| PromiseProperties.FirstStepStartsRoot | Source/Promise.swift:60-63 | the first step of any of the three kinds starts the root exactly once and leaves a started chain |
| PromiseProperties.ChainKeepsRootCount | Source/Promise.swift:176-192 | any further chain of map `then`, flatMap `then` and `onError` steps leaves the root's start count unchanged |
| PromiseProperties.RootStartsOnce | Source/Promise.swift:176-196 | creating a root runs nothing; any non-empty chain of map `then`, flatMap `then` and `onError` from it runs the root producer exactly once |
| PromiseProperties.FinallyOnSettled | Source/Promise.swift:158-162 | on a started, settled promise the block runs at once, once, and is not stored |
| PromiseProperties.FinallyOnPending | Source/Promise.swift:163 | on a started, pending promise the block is stored without running, and runs exactly once at a later resolve or reject |
| PromiseProperties.FinallyStartsNode | Source/Promise.swift:159 | `finally` on a fresh root starts it first; a producer that settles at once is followed by the block, once |
| PromiseProperties.FinallyAfterSuccessReaction | Source/Promise.swift:214-215 | at settlement the finally block runs after the success reaction: the child's block and its finally come first |
| PromiseProperties.ProgressLastWriterWins | Source/Promise.swift:169-172 | after two `progress` registrations only the second handler receives a tick; no state changes |
| PromiseProperties.ProgressReachesMapChild | Source/Promise.swift:78 | after a map `then` and a handler on the child, a tick on the parent records the reading on both promises and reaches the child's handler, and only that handler |
| PromiseProperties.ProgressSkipsFlatChild | Source/Promise.swift:93-106 | flatMap with a user block never rewires the parent's progress slot, in any parent state; nor does any flatMap over a parent that is not yet Fulfilled. The parent's earlier handler still receives ticks |

## Left out

- Termination: then(p:) reuses an existing promise, so a reaction cascade cannot be shown to end by its structure. Every operation therefore takes a `fuel` bound. Only start, resolve, reject and progress consume fuel, and at fuel 0 each does nothing. The lemmas assume enough fuel for the cascade they describe. A cascade deeper than its fuel is cut off, which Swift does not do.
- Values of type `T`/`X` and generics: every promise carries an `int`. The `Void` result of the internal blocks `{ x in resolve(x) }` and `reject` is modelled as 0.
- Progress is an `int` token, not a `Float`. It is only stored and forwarded, never computed with.
- `ErrorType` is modelled as `Error`. `NSError(domain: "", code: 123)` is the single constant `Synthetic`.
- Callbacks are data: user transforms are pure functions; producers are `ResolveNow`, `RejectNow` or `Defer`. A deferred promise is settled later by a direct call to resolve or reject. What user code does beyond that is not modelled, except that it ran, which goes in the event log. A producer that calls several entry points from its own body is not modelled.
- The two initialisers differ only in whether the producer also receives the progress callback. Both are one `Create`; progress is delivered by calling `ProgressPromise` directly.
- Threads, ARC, retain cycles from captured `self`, and weak references: the engine itself is sequential, and none of these change the states.
- The typealiases at Source/Promise.swift:17 and 21-25 are declarations only.
- FlatOnFulfilledParent, FlatOnPendingParent: these cover a user block whose nested promise is a fresh root. For an existing promise `p` (`then(p:)`), NextPromiseReused, NextPromisePendingReused and NextPromiseFreshRoot cover a `p` that is primed and settled, primed and pending, or a root nobody has started. Primed means started, with the inherited root start already run or absent; this includes every root started by `start()` or `finally` and every promise of a chain built with the public `then`/`onError`.
- NextPromiseReused, NextPromisePendingReused: a `p` that is started and carries an inherited root start that has not yet run is not covered. Its start preamble runs another chain's producer, whose effect on the store depends on that chain.
- ChainFollowsRoot, SettleCascades: chains of map `then` and `onError` steps only. A flatMap step inside a chain is covered one level deep, by FlatOnPendingParent and FlattenedChildFollows.
