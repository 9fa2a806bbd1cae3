# AsyncNinja core, modelled in Dafny

AsyncNinja is a Swift library of futures, channels and producers. This project
models the value-level core of the library and proves properties of it:

- the `Fallible` result type and its algebra (`fallible.dfy`);
- the per-event handlers of the stream combinators `mapEvent`, `map`, `filter`,
  the `flatMap` overloads, `mapCompletion`, `mapSuccess` and `unwrapped`
  (`event_source_map.dfy`), over the shared event vocabulary and the
  downstream producer (`event_source.dfy`);
- folding a drained channel (`reduce`, `foldr`) and cursor pagination
  (`event_source_folding.dfy`);
- the array reducers `Array.reduce`, `flatMap`, `flatMapSequential`,
  `flatMapToChannel`, `aggregateFuture` and the copying `+=`
  (`array_future.dfy`), and the in-place append buffer `ArrayWrapper` with the
  channel-based `aggregateFuture` (`array_buffer.dfy`);
- `HeadChange` and one `updateHead` of the thread-safe container
  (`thread_safe_container.dfy`), and the `maxThreads` mapping of the
  concurrency policies (`concurrency.dfy`).

`swift_stdlib.dfy` holds the two pieces of the Swift standard library the core
uses: `Optional` and the left fold `Sequence.reduce(_:_:)`.

How the model reads the library:

- A Swift `Error` is `Error = DynamicCastFailed | Thrown(tag)`. A call to a
  throwing closure is an `Outcome`: it `Returned` a value or `Threw` an error.
- A future is modelled by the `Fallible` it resolves to, so `wait()` is that
  value. A channel drained by `waitForAll()` is `Drained(updates, completion)`.
- A promise is modelled by the completions it is handed, in order.
  `ArrayFuture.Resolution` takes the first of them.
- The downstream producer is the class `EventSource.Producer`, an append-only
  log of the calls made on it: `Emit` for `update`, `Finish` for
  `complete`/`fail`/`succeed`, and `StoreError` for the write
  `context[keyPath: path] = error`.
- `EventSource.Observed` reads a log the way a subscriber sees the channel:
  the updates before the first completion, and that completion.
- A combinator is a handler: a function from one upstream event to the calls
  it makes. `Producer.Pump` runs a handler over a trace of events, and
  `EventSource.Derive` is the resulting log.
- A handler that throws fails the derived producer; `EventSourceMap.AfterTry`
  states this rule.
- The contextual overloads of the combinators take the context as the first
  argument of the transform. Here the transform is that closure with the
  context already applied, so one handler models both overloads.

Where the code does not say what its names suggest, the model follows the code:

- `foldr` computes a left fold: `updates.reduce(a, block)`.
- `Array.reduce` goes on with the remaining items after a block fails. It fails
  the promise for each failing item, keeps the accumulator, and ends with
  `succeed`. The promise then resolves to the first failure.
- In the `cursor` helper `update(element:completion:)`, `completion.maybeSuccess`
  has type `Cursor??`. Its `guard let` therefore binds the inner nil, and the
  `else { succeed() }` branch never runs: on `success(nil)` the helper
  returns nil without completing the producer. The executor variant of
  `cursor` completes it with its trailing `succeed()`, which is its only
  success. The context variant makes no such call, so after `success(nil)` its
  channel never completes (see "## Findings").
- `recover(with:)` returns the success value itself. The pattern variable
  shadows the parameter, so the argument is used only on a failure.

## Model

| member | source | states |
|---|---|---|
| Fallibles.Get | Sources/AsyncNinja/Fallible.swift:246-247 | `get()` returns the success value, and throws exactly the failure's error |
| Fallibles.DynamicCast | Sources/AsyncNinja/Fallible.swift:46-57 | a failure keeps its error; a castable success stays a success of the cast value; a success that cannot be cast becomes `failure(dynamicCastFailed)` |
| Fallibles.DynamicCastToSelf | Sources/AsyncNinja/Fallible.swift:46-57 | casting to the value's own type leaves the fallible unchanged |
| Fallibles.DynamicCastTwice | Sources/AsyncNinja/Fallible.swift:46-57 | casting twice is casting once by the composed cast, so a failed first cast is never turned into anything else |
| Fallibles.OnSuccess | Sources/AsyncNinja/Fallible.swift:92-97 | the block runs once, on the success value, exactly when there is a success; what it throws is rethrown |
| Fallibles.OnFailure | Sources/AsyncNinja/Fallible.swift:104-108 | the block runs once, on the error, exactly when there is a failure; what it throws is rethrown |
| Fallibles.OnSuccessOnFailureExclusive | Sources/AsyncNinja/Fallible.swift:92-108 | of `onSuccess` and `onFailure`, exactly one runs its block, exactly once |
| Fallibles.FallibleOf | Sources/AsyncNinja/Fallible.swift:177-183 | a returned value becomes a success of it, a thrown error a failure with it |
| Fallibles.GetFallibleRoundTrip | Sources/AsyncNinja/Fallible.swift:177-183 | `fallible { try f.get() }` is `f`, and `get()` of `fallible(block:)` replays the block |
| Fallibles.FlatFallible | Sources/AsyncNinja/Fallible.swift:191-197 | the block's own fallible is returned as is; a thrown error becomes a failure |
| Fallibles.Flatten | Sources/AsyncNinja/Fallible.swift:209-216 | `success(inner)` becomes `inner`, an outer failure stays that failure; the result succeeds iff both levels do |
| Fallibles.FlatFallibleIsFlattenedFallible | Sources/AsyncNinja/Fallible.swift:191-216 | `flatFallible` equals `fallible` followed by `flatten` on every block outcome |
| Fallibles.TryRecover | Sources/AsyncNinja/Fallible.swift:123-134 | a success is returned unchanged; a failure becomes the block's value, or a failure with the error the block throws |
| Fallibles.Recover | Sources/AsyncNinja/Fallible.swift:145-152 | the success value, or the block applied to the failure's error |
| Fallibles.RecoverWith | Sources/AsyncNinja/Fallible.swift:159-166 | the fallible's own success value when there is one, the argument only on a failure |
| Fallibles.TryRecoverAgreesWithRecover | Sources/AsyncNinja/Fallible.swift:123-152 | a `tryRecover` whose block never throws always succeeds with `recover`'s value; on a failure `tryRecover` is `fallible` of the block |
| Fallibles.RecoverWithIsConstantRecover | Sources/AsyncNinja/Fallible.swift:145-166 | `recover(with: d)` is `recover` with the constant block `d` |
| Fallibles.Zip | Sources/AsyncNinja/Fallible.swift:251-264 | a success of the pair iff both succeed; otherwise the failure of the first failing argument |
| Fallibles.Zip3 | Sources/AsyncNinja/Fallible.swift:267-282 | a success of the triple iff all three succeed; otherwise the failure of the first failing argument in argument order |
| Fallibles.Zip3IsNestedZip | Sources/AsyncNinja/Fallible.swift:251-282 | zipping three is zipping the first two and then the third, up to the tuple's shape |
| Concurrency.DefaultConcurent | Sources/AsyncNinja/Concurrency.swift:17 | the default concurrency of `.concurent` is `.auto` |
| Concurrency.MaxThreads | Sources/AsyncNinja/Concurrency.swift:26-32 | `.unrestricted` allows 64 threads, `.restricted(n)` allows `n`, `.auto` the processor count (a parameter) |
| Concurrency.ExecutionMaxThreads | Sources/AsyncNinja/Concurrency.swift:36-41 | `.sequential` allows one thread; `.concurent(c)` allows what `c` allows |
| Concurrency.DefaultExecutionUsesCores | Sources/AsyncNinja/Concurrency.swift:17-41 | the default execution is capped at the processor count; with at least one processor, `.sequential` allows no more threads than any `.concurent` policy whose restriction is at least one |
| ThreadSafeContainer.Apply | Sources/ThreadSafeContainer.swift:37-40 | `.keep` leaves the head as it was, `.remove` makes it nil, `.replace(t)` makes it exactly `t`; the file declares only the cases, so this reading comes from their names |
| ThreadSafeContainer.LastEffective | Sources/ThreadSafeContainer.swift:37-40 | some change iff the run holds a change that is not `.keep`, and then one of the run's changes, not `.keep`, with only `.keep` after it |
| ThreadSafeContainer.ApplyAllIsLastEffective | Sources/ThreadSafeContainer.swift:31-40 | after a run of updates, in their linearised order, the head is set by the last `.remove` or `.replace` alone, and is the initial head when all were `.keep` |
| ThreadSafeContainer.LastEffectiveOfPrefixed | Sources/ThreadSafeContainer.swift:37-40 | the last effective change of a run is that of its tail, or its first change when the tail is all `.keep` |
| ThreadSafeContainer.Container.constructor | Sources/ThreadSafeContainer.swift:31 | a new container has no head |
| ThreadSafeContainer.Container.UpdateHead | Sources/ThreadSafeContainer.swift:31-40 | the block sees the current head; the head becomes the block's change applied to it; the returned pair is the head before and after, equal for `.keep`; the file declares only the protocol's `updateHead` signature and `HeadChange`, so this reading comes from the signature's `(oldHead:newHead:)` result and the case names |
| EventSource.Updates | Sources/AsyncNinja/EventSource_Map.swift:147 | the update events carrying a sequence of values, one each, in order |
| EventSource.TraceOf | Sources/AsyncNinja/EventSource_Folding.swift:17 | a drained channel's event trace is its updates in order, then its completion |
| EventSource.Emits | Sources/AsyncNinja/EventSource_Map.swift:311 | posting a sequence posts its elements one by one, in order |
| EventSource.DeriveAppend | Sources/AsyncNinja/EventSource_Map.swift:146-155 | handling a trace in two parts gives the log of the whole trace: downstream order follows upstream order |
| EventSource.DeriveSameHandler | Sources/AsyncNinja/EventSource_Map.swift:146-155 | handlers that answer every event alike give the same log |
| EventSource.ObservedEmitsThenFinish | Sources/AsyncNinja/EventSource_Map.swift:146-155 | updates then a completion are seen as exactly those updates and that completion |
| EventSource.Producer.Pump | Sources/AsyncNinja/EventSource_Map.swift:146-155 | delivering a trace to a handler appends exactly the handler's calls for each event, in order, to the producer |
| EventSourceMap.AfterTry | Sources/AsyncNinja/EventSource_Map.swift:148 | a `try` on a throwing transform fails the derived producer with the thrown error; otherwise the handler goes on with the value; the catch that fails the producer is in `makeProducer`, which is not part of this model |
| EventSourceMap.PostEffect | Sources/AsyncNinja/EventSource_Map.swift:65 | `post` of an update event is an update of its value; `post` of a completion event is that completion |
| EventSourceMap.MapEventHandler | Sources/AsyncNinja/EventSource_Map.swift:61-66 | every event, update or completion, is transformed and the result posted; a throw fails the derived channel |
| EventSourceMap.MapHandler | Sources/AsyncNinja/EventSource_Map.swift:193-204 | `update(u)` becomes `update(transform(u))`, a throw fails the derived channel, a completion is forwarded unchanged |
| EventSourceMap.MapIsMapEvent | Sources/AsyncNinja/EventSource_Map.swift:61-66 | `map` is `mapEvent` with a transform that leaves completions alone |
| EventSourceMap.DeriveTraceOf | Sources/AsyncNinja/EventSource_Map.swift:146-155 | a handler over a drained channel handles its updates, then its completion |
| EventSourceMap.DeriveUpdatesCons | Sources/AsyncNinja/EventSource_Map.swift:146-155 | a handler handles the first update before the rest |
| EventSourceMap.FirstFailureObserved | Sources/AsyncNinja/EventSource_Map.swift:146-155 | a handler that posts only `ps` for the updates before `k` and fails on update `k` is seen as `ps` then that failure, whatever follows |
| EventSourceMap.Mapped | Sources/AsyncNinja/EventSource_Map.swift:194-199 | the transformed values of the updates, one per update, in order |
| EventSourceMap.MapUpdates | Sources/AsyncNinja/EventSource_Map.swift:194-199 | over updates whose transform never throws, `map` posts the transformed values in order |
| EventSourceMap.MapTrace | Sources/AsyncNinja/EventSource_Map.swift:146-155 | over a whole channel whose transform never throws, `map` posts every transformed update in order, then the upstream completion unchanged |
| EventSourceMap.MapFirstThrow | Sources/AsyncNinja/EventSource_Map.swift:146-155 | when the transform first throws on update `k`, subscribers see the first `k` transformed updates and then that failure |
| EventSourceMap.MapDoublesExample | Sources/AsyncNinja/EventSource_Map.swift:193-204 | doubling 1, 2, 3 then `success(0)` posts 2, 4, 6 then `success(0)` |
| EventSourceMap.FlatMapOptionalHandler | Sources/AsyncNinja/EventSource_Map.swift:411-420 | a non-nil result is posted, nil posts nothing, a throw fails the derived channel, a completion is forwarded |
| EventSourceMap.NonNil | Sources/AsyncNinja/EventSource_Map.swift:368-378 | the non-nil results are at most as many as the updates |
| EventSourceMap.NonNilMembers | Sources/AsyncNinja/EventSource_Map.swift:368-378 | a value is among the posted values iff some update's transform returns it |
| EventSourceMap.FlatMapOptionalUpdates | Sources/AsyncNinja/EventSource_Map.swift:368-378 | over updates whose transform never throws, exactly the non-nil results are posted, in order |
| EventSourceMap.FlatMapOptionalTrace | Sources/AsyncNinja/EventSource_Map.swift:411-420 | over a whole channel whose transform never throws, the non-nil results in order, then the completion |
| EventSourceMap.FlatMapOptionalFirstThrow | Sources/AsyncNinja/EventSource_Map.swift:411-420 | when the transform first throws on update `k`, subscribers see the non-nil results of the first `k` updates and then that failure |
| EventSourceMap.FlatMapSequenceHandler | Sources/AsyncNinja/EventSource_Map.swift:504-512 | the elements of each result are posted in order, a throw fails the derived channel, a completion is forwarded |
| EventSourceMap.FlatMapSequenceUpdates | Sources/AsyncNinja/EventSource_Map.swift:461-471 | over updates whose transform never throws, the results' elements are posted result after result |
| EventSourceMap.FlatMapSequenceTrace | Sources/AsyncNinja/EventSource_Map.swift:504-512 | over a whole channel whose transform never throws, all results' elements in order, then the completion |
| EventSourceMap.FlatMapSequenceFirstThrow | Sources/AsyncNinja/EventSource_Map.swift:504-512 | when the transform first throws on update `k`, subscribers see the elements of the first `k` results and then that failure |
| EventSourceMap.CatchingCompletion | Sources/AsyncNinja/EventSource_Map.swift:255-264 | a success calls `succeed`; a failure is written into the context's error slot when a key path is given, and fails the channel otherwise |
| EventSourceMap.FlatMapSequenceCatchHandler | Sources/AsyncNinja/EventSource_Map.swift:307-327 | updates are handled as by `flatMap` to a sequence; completions as `CatchingCompletion` says |
| EventSourceMap.FlatMapFutureCatchHandler | Sources/AsyncNinja/EventSource_Map.swift:238-266 | a resolved success is posted, a resolved failure fails the derived channel; completions as `CatchingCompletion` says |
| EventSourceMap.FlatMapFutureHandler | Sources/AsyncNinja/EventSource_Map.swift:531-547 | a resolved success is posted, a resolved failure fails the derived channel; a completion is forwarded |
| EventSourceMap.FlatMapFutureIsMapOfGet | Sources/AsyncNinja/EventSource_Map.swift:531-547 | `flatMap` to a future is `map` by `get()` of the resolved value |
| EventSourceMap.CatchAbsorbsUpstreamFailure | Sources/AsyncNinja/EventSource_Map.swift:255-264 | with a key path an upstream failure is stored and the derived channel is not completed; without one, the channel fails |
| EventSourceMap.MapCompletionHandler | Sources/AsyncNinja/EventSource_Map.swift:666-675 | updates pass unchanged; the completion becomes `fallible { try transform(completion) }` |
| EventSourceMap.OnSuccessValue | Sources/AsyncNinja/EventSource_Map.swift:704-707 | a failure is rethrown; a success is transformed |
| EventSourceMap.MapSuccessHandler | Sources/AsyncNinja/EventSource_Map.swift:704-707 | updates pass unchanged; a failure keeps its error; a success becomes `fallible { try transform(success) }` |
| EventSourceMap.MapCompletionUpdates | Sources/AsyncNinja/EventSource_Map.swift:589-598 | `mapCompletion` posts exactly the upstream updates, in order |
| EventSourceMap.MapCompletionTrace | Sources/AsyncNinja/EventSource_Map.swift:589-598 | over a whole channel, the upstream updates then the transformed completion |
| EventSourceMap.MapSuccessTrace | Sources/AsyncNinja/EventSource_Map.swift:633-636 | over a whole channel, the upstream updates, then the upstream failure or the transformed success |
| EventSourceMap.FilterHandler | Sources/AsyncNinja/EventSource_Map.swift:798-811 | an update is forwarded iff the predicate returns true and dropped iff it returns false; a throw fails the channel; a completion is forwarded |
| EventSourceMap.FilterIsFlatMapOptional | Sources/AsyncNinja/EventSource_Map.swift:751-764 | `filter` is `flatMap` to the update itself or nil |
| EventSourceMap.Kept | Sources/AsyncNinja/EventSource_Map.swift:751-764 | the kept updates are at most as many as the updates |
| EventSourceMap.KeptMembers | Sources/AsyncNinja/EventSource_Map.swift:751-764 | an update is forwarded iff it is upstream and the predicate accepts it |
| EventSourceMap.KeptIsNonNil | Sources/AsyncNinja/EventSource_Map.swift:751-764 | the updates `filter` keeps are the non-nil results of the equivalent `flatMap` |
| EventSourceMap.FilterUpdates | Sources/AsyncNinja/EventSource_Map.swift:798-811 | over updates whose predicate never throws, `filter` posts exactly the accepted ones, in order |
| EventSourceMap.FilterTrace | Sources/AsyncNinja/EventSource_Map.swift:798-811 | over a whole channel whose predicate never throws, exactly the accepted updates in order, then the completion |
| EventSourceMap.FilterFirstThrow | Sources/AsyncNinja/EventSource_Map.swift:798-811 | when the predicate first throws on update `k`, subscribers see the accepted updates among the first `k` and then that failure |
| EventSourceMap.UnwrappedHandler | Sources/AsyncNinja/EventSource_Map.swift:823-829 | a successful update is posted as its value; a failed one fails the channel; a completion is forwarded |
| EventSourceFolding.Reduce | Sources/AsyncNinja/EventSource_Folding.swift:15-30 | on a successful upstream the left fold of the block over the updates from `a`; on a failed one, that failure |
| EventSourceFolding.ReduceFuture | Sources/AsyncNinja/EventSource_Folding.swift:33-46 | on a successful upstream, the fold of the resolved values when no block fails and the first failure otherwise; on a failed upstream, that failure |
| EventSourceFolding.LiftedReduceIsReduce | Sources/AsyncNinja/EventSource_Folding.swift:15-46 | a future-returning block that always succeeds folds as the plain block does: the two `reduce` overloads agree |
| EventSourceFolding.FoldrEffects | Sources/AsyncNinja/EventSource_Folding.swift:48-57 | subscribers see one update, the left fold of all updates, iff there was an update, then the upstream completion unchanged |
| EventSourceFolding.Foldr | Sources/AsyncNinja/EventSource_Folding.swift:48-57 | a fresh producer receives exactly the calls `FoldrEffects` lists |
| EventSourceFolding.FoldrPostsReduce | Sources/AsyncNinja/EventSource_Folding.swift:15-57 | runs `reduce` and `foldr` on the same channel: on a successful upstream `reduce` succeeds and `foldr` posts exactly its value when there were updates, and nothing otherwise; on a failed upstream `reduce` fails and `foldr` posts at most one update |
| EventSourceFolding.PageElement | Sources/AsyncNinja/EventSource_Folding.swift:88 | a page yields its updates when there are any, and nil when there are none |
| EventSourceFolding.StepNext | Sources/AsyncNinja/EventSource_Folding.swift:70-79 | the helper returns a cursor exactly on `success(c)`, and that cursor |
| EventSourceFolding.StepCompletesIffFailed | Sources/AsyncNinja/EventSource_Folding.swift:66-80 | as written, the helper completes the producer exactly when the page failed, with that failure; the element, if any, is posted first |
| EventSourceFolding.IntendedStepCompletesIffNil | Sources/AsyncNinja/EventSource_Folding.swift:66-80 | corrected: the helper completes the producer exactly when it returns nil; the element, if any, is posted first |
| EventSourceFolding.StepEffects | Sources/AsyncNinja/EventSource_Folding.swift:66-80 | the element, if any, is posted first; the helper then completes exactly on a failure (with it), and, with the corrected helper, also on `success(nil)` (with success); as written `success(nil)` makes no call |
| EventSourceFolding.StepObserved | Sources/AsyncNinja/EventSource_Folding.swift:66-80 | one page handed to the helper is seen as its updates, if any, and, when the helper returns nil, the page's failure, or nothing as written and success with the corrected helper |
| EventSourceFolding.UpdateWithCursor | Sources/AsyncNinja/EventSource_Folding.swift:66-80 | posts a non-nil element, then fails on a failure and returns nil; on any success makes no further call and returns the (possibly nil) cursor |
| EventSourceFolding.Paginate | Sources/AsyncNinja/EventSource_Folding.swift:87-92 | the `while let` loop of both `cursor` functions (also lines 103-108) from a first request: it requests the initial cursor first, at most `fuel + 1` times, and a run that stopped did so on a page that returned no cursor |
| EventSourceFolding.Continue | Sources/AsyncNinja/EventSource_Folding.swift:103-108 | the rest of the loop after the helper returned: no request iff it returned nil or fuel is spent, and then the loop has stopped iff it returned nil; otherwise the next request is the returned cursor |
| EventSourceFolding.PaginateRequests | Sources/AsyncNinja/EventSource_Folding.swift:87-92 | the first request uses the initial cursor and each later one the cursor the previous page returned; the loop stops exactly when a page returns no cursor |
| EventSourceFolding.PaginateHeadObserved | Sources/AsyncNinja/EventSource_Folding.swift:87-92 | one round of the loop is seen as the first page's updates, if any, then the rest of the run, or, when the helper returned nil, the stop on that page |
| EventSourceFolding.PaginateObserved | Sources/AsyncNinja/EventSource_Folding.swift:87-92 | subscribers see each non-empty page as one update, in request order; once the loop stops, the last page's failure, and otherwise nothing as written and success with the corrected helper |
| EventSourceFolding.CursorLoop | Sources/AsyncNinja/EventSource_Folding.swift:87-92 | the loop requests and posts exactly as the pagination run `Paginate` with the helper as written says |
| EventSourceFolding.Cursor | Sources/AsyncNinja/EventSource_Folding.swift:83-97 | the pagination run as written, and once the loop stops, one more `succeed()` |
| EventSourceFolding.CursorInContext | Sources/AsyncNinja/EventSource_Folding.swift:99-112 | the pagination run as written, with no further call after the loop |
| EventSourceFolding.CursorVariantsDiffer | Sources/AsyncNinja/EventSource_Folding.swift:66-112 | once the loop stops, the executor variant is seen to end with the last page's failure or else success; the context variant ends only on a failed page and otherwise never completes |
| EventSourceFolding.ContextCursorNeverCompletes | Sources/AsyncNinja/EventSource_Folding.swift:74-77 | a first page of `success(nil)` leaves the context variant's channel without a completion as written, and completes it with success under the corrected helper |
| EventSourceFolding.CorrectedCursorVariantsAgree | Sources/AsyncNinja/EventSource_Folding.swift:66-112 | corrected: once the loop stops, the channel ends with the last page's failure or success, and the executor variant's extra `succeed()` is never seen |
| ArrayBuffer.ArrayWrapper.constructor | Sources/AsyncNinja/Array.swift:12-15 | a new wrapper holds an empty array whatever the reserve |
| ArrayBuffer.ArrayWrapper.AppendElement | Sources/AsyncNinja/Array.swift:17-20 | the contents become the old contents followed by the element; the wrapper itself is returned |
| ArrayBuffer.ArrayWrapper.AppendContents | Sources/AsyncNinja/Array.swift:22-25 | the contents become the old contents followed by the argument in order; the wrapper itself is returned |
| ArrayBuffer.AggregateFuture | Sources/AsyncNinja/Array.swift:29-33 | on a successful channel, the wrapper's final array is every value in order; on a failed one, that failure |
| ArrayFuture.Resolution | Sources/AsyncNinja/Array+Future.swift:19 | a future resolves to the first completion its promise is handed, and to nothing before one |
| ArrayFuture.ReduceCompletions | Sources/AsyncNinja/Array+Future.swift:15-26 | one `fail` per failing item in order, then `succeed` with the final accumulator |
| ArrayFuture.Reduce | Sources/AsyncNinja/Array+Future.swift:15-26 | the loop hands the promise exactly `ReduceCompletions` |
| ArrayFuture.ReduceIsFoldLeft | Sources/AsyncNinja/Array+Future.swift:17-24 | the final accumulator is the left fold that keeps the accumulator on a failure; the promise is failed iff some block fails |
| ArrayFuture.ReduceResolves | Sources/AsyncNinja/Array+Future.swift:17-24 | when every block succeeds, `reduce` resolves to the left fold of the resolved values; otherwise to the first failure |
| ArrayFuture.FlatMapRoute | Sources/AsyncNinja/Array+Future.swift:28-33 | `.sequential` goes to `flatMapSequential` and only it does; `.concurent(c)` goes to the concurrent path with `c` |
| ArrayFuture.FlatMapDefaultIsConcurrentAuto | Sources/AsyncNinja/Array+Future.swift:28 | by default `flatMap` takes the concurrent path with `.auto` |
| ArrayFuture.Results | Sources/AsyncNinja/Array+Future.swift:99 | the resolved result of the block on each item, in item order |
| ArrayFuture.SuccessValuesSnoc | Sources/AsyncNinja/Array+Future.swift:67-72 | one more result adds its value to the successes or its error to the failures |
| ArrayFuture.AllSucceeded | Sources/AsyncNinja/Array+Future.swift:67-72 | no failure iff every result succeeds, and then the successes are all the values, index by index |
| ArrayFuture.FirstFailure | Sources/AsyncNinja/Array+Future.swift:67-72 | the first recorded error is that of the first failing result, before which all succeed |
| ArrayFuture.FlatMapSequential | Sources/AsyncNinja/Array+Future.swift:67-72 | succeeds iff every block does, with their values in item order collected in the one wrapper; otherwise resolves to the first failure |
| ArrayFuture.AggregateFuture | Sources/AsyncNinja/Array+Future.swift:120-122 | all the futures' values in order iff all succeed; otherwise the first failure |
| ArrayFuture.ItemEffectsAsWritten | Sources/AsyncNinja/Array+Future.swift:99-110 | a success is posted; a failure always fails the producer, then is stored with a key path, or fails it again without one |
| ArrayFuture.FlatMapToChannel | Sources/AsyncNinja/Array+Future.swift:90-117 | each item's calls in item order, then `succeed(())`, on a fresh producer |
| ArrayFuture.KeyPathDoesNotAbsorbFailure | Sources/AsyncNinja/Array+Future.swift:102-109 | with a key path, one failing item still fails the channel; the corrected calls let it succeed |
| ArrayFuture.ItemEffects | Sources/AsyncNinja/Array+Future.swift:99-110 | corrected: a failure is only stored when a key path is given, and fails the producer only when not |
| ArrayFuture.CorrectedItemsObserved | Sources/AsyncNinja/Array+Future.swift:98-112 | corrected: with a key path, or with no failure, subscribers see exactly the successes in order and no completion |
| ArrayFuture.CorrectedFlatMapToChannel | Sources/AsyncNinja/Array+Future.swift:98-113 | corrected: with a key path, or with no failure, subscribers see every success in order and then `success(())` |
| ArrayFuture.Appended | Sources/AsyncNinja/Array+Future.swift:144-148 | a copy one longer, with the left operand as its prefix and the element last |
| SwiftStdlib.FoldLeftAppend | Sources/AsyncNinja/EventSource_Folding.swift:21-24 | folding a concatenation is folding the second part from the result of the first |
| SwiftStdlib.FoldLeftSnoc | Sources/AsyncNinja/EventSource_Folding.swift:21-24 | folding one more element applies the block once more |

## Findings

| source | as written | input that shows it | evidently intended | confidence | as-written member | corrected member |
|---|---|---|---|---|---|---|
| Sources/AsyncNinja/EventSource_Folding.swift:74-77 | `completion.maybeSuccess` is a `Cursor??`, so `guard let cursor` binds the inner nil: on `success(nil)` the helper returns nil without calling `succeed()`, and the `cursor(context:...)` variant, which has no trailing `succeed()`, never completes | a first page with no updates and completion `success(nil)` | the helper succeeds on a nil cursor, as its `else { succeed() }` branch says, so both variants complete | medium, not executed | EventSourceFolding.ContextCursorNeverCompletes | EventSourceFolding.CorrectedCursorVariantsAgree |
| Sources/AsyncNinja/Array+Future.swift:102-109 | a failing item always calls `producer.fail(error)`, before the key-path check; with a key path the error is also stored, without one the producer is failed a second time | a key path is given and the one item's future fails with `e`: subscribers see `failure(e)` although the error was stored, and the trailing `succeed(())` is never seen | as in `flatMap(context:catch:)` (Sources/AsyncNinja/EventSource_Map.swift:255-264): with a key path the error only goes to the context slot and the channel goes on, without one the producer fails once | medium, not executed | ArrayFuture.KeyPathDoesNotAbsorbFailure | ArrayFuture.CorrectedFlatMapToChannel |

`EventSourceFolding.Cursor`, `CursorInContext` and `CursorLoop` model the code
as written, through the helper `StepEffects(AsWritten, ...)`. The corrected
helper is `StepEffects(Intended, ...)`, and `Paginate(Intended, ...)` is the run
it gives.

`ArrayFuture.FlatMapToChannel` models the code as written, through
`ItemEffectsAsWritten`. The corrected calls are `ArrayFuture.ItemEffects`, and
`ArrayFuture.FlatMapToChannelLog` is the log they give.

## Left out

- Scheduling and blocking are not modelled: executors, `schedule`,
  `promise(executor:)`, `producer(executor:)`, `makeProducer`, `wait()` and
  `waitForAll()`. Futures are their resolved values, drained channels are
  `Drained` values, and a handler's calls are the ones it makes when the
  scheduler delivers its events in order.
- The write-once rule of promises and producers is not part of these files, so
  it is not proved. `Observed` and `Resolution` are definitions of how a log is
  read, and `EventSource.ObservedAppend` proves what that reading implies:
  nothing after the first completion is seen.
- The concurrent `Array.flatMap(concurrency:)` (Sources/AsyncNinja/Array+Future.swift:35-65)
  is left out: its point is parallel scheduling under a lock and a dispatch
  group. Only the dispatch to it is modelled.
- `flatMapFuture`, which `aggregateFuture` in Sources/AsyncNinja/Array.swift
  starts from, is not part of this model. `ArrayBuffer.AggregateFuture` takes
  its drained output as input.
- `future(result:)` (Sources/AsyncNinja/Array+Future.swift:10-12) only wraps a
  value in a future, which is the identity here.
- The lock-free compare-and-swap retry behind `updateHead` is not modelled:
  only the effect of one linearised call. Its head is any value, not only a
  class instance.
- The processor count is a parameter (`coresCount`).
- `reserveCapacity` is only a performance hint and is not modelled.
- Weak context and weak producer references (`producer.value?`), `traceID`
  logging and `description` formatting are left out.
- The traps are left out: `staticCast`, the forced cast in `flatten`, and
  `unsafelyUnwrapped`.
- Errors are only told apart by a tag. The library's own
  `AsyncNinjaError.dynamicCastFailed` is the only error named.
- The `ArrayWrapper` class is declared twice, identically, in
  Sources/AsyncNinja/Array.swift and Sources/AsyncNinja/Array+Future.swift:125-141.
  It is modelled once.
- An `EventSource` returned by a `flatMap` transform is modelled by the
  sequence of its updates only. The handlers hand it to `update(_:)`, whose
  overload for event sources is not part of this model. So in the model the
  source's own completion never reaches the derived channel, and the
  interleaving of several such sources is not captured.
- The handlers take no executor, cancellation token or buffer size. Those
  arguments only affect scheduling.
- EventSourceFolding.Cursor: the `while let` loop need not end, so it is run
  for at most `fuel` requests after the first; a run that uses up its fuel
  reports `stopped == false` and makes no further call.
- EventSourceFolding.CursorInContext: bounded by `fuel` in the same way.
- EventSourceFolding.Reduce: on a failed upstream the block is never applied.
  The model states only that the result is the failure; with a pure block
  there is nothing else to observe.
