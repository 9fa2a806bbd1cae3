/**
 The per-event handlers of AsyncNinja's stream combinators
 (Sources/AsyncNinja/EventSource_Map.swift). Each handler is a function from
 one upstream event to the calls it makes downstream; `Producer.Pump` runs one
 over a whole upstream trace, and `Derive` is the log that results.

 The contextual overloads pass the context to the transform as its first
 argument; a transform here is that closure with the context already applied,
 so one handler models both overloads. A future returned by a transform is
 modelled by the `Fallible` it resolves to, and an `EventSource` returned by a
 transform by the sequence of its elements.
 */
module EventSourceMap {
  import opened SwiftStdlib
  import opened Fallibles
  import opened EventSource

  /** A handler body that starts with `try` on a throwing closure: a throw fails
      the derived producer (the catch around every handler in `makeProducer`),
      otherwise the body goes on with the returned value. */
  function AfterTry<X, P, S>(o: Outcome<X>, body: X -> seq<Effect<P, S>>): (r: seq<Effect<P, S>>)
    ensures o.Threw? ==> r == [Finish(Failure(o.error))]
    ensures o.Returned? ==> r == body(o.value)
  {
    match o
    case Returned(x) => body(x)
    case Threw(e) => [Finish(Failure(e))]
  }

  /** `post(_:)` of an event. */
  function PostEffect<P, S>(event: Event<P, S>): (r: Effect<P, S>)
    ensures event.Update? <==> r.Emit?
    ensures event.Update? ==> r.value == event.update
    ensures event.Completion? ==> r == Finish(event.completion)
  {
    match event
    case Update(p) => Emit(p)
    case Completion(c) => Finish(c)
  }

  // ---------------------------------------------------------------- mapEvent

  /** `mapEvent`: every event, update or completion, is transformed and posted. */
  function MapEventHandler<U, S, P, T>(transform: Event<U, S> -> Outcome<Event<P, T>>, event: Event<U, S>)
    : (r: seq<Effect<P, T>>)
    ensures transform(event).Returned? ==> r == [PostEffect(transform(event).value)]
    ensures transform(event).Threw? ==> r == [Finish(Failure(transform(event).error))]
  {
    AfterTry(transform(event), (e: Event<P, T>) => [PostEffect(e)])
  }

  // --------------------------------------------------------------------- map

  /** `map`: an update is transformed, a completion forwarded unchanged. */
  function MapHandler<U, S, P>(transform: U -> Outcome<P>, event: Event<U, S>): (r: seq<Effect<P, S>>)
    ensures event.Update? && transform(event.update).Returned? ==> r == [Emit(transform(event.update).value)]
    ensures event.Update? && transform(event.update).Threw? ==> r == [Finish(Failure(transform(event.update).error))]
    ensures event.Completion? ==> r == [Finish(event.completion)]
  {
    match event
    case Update(u) => AfterTry(transform(u), (p: P) => [Emit(p)])
    case Completion(c) => [Finish(c)]
  }

  /** The `mapEvent` transform that does what `map` does. */
  function UpdatesOnly<U, S, P>(transform: U -> Outcome<P>): Event<U, S> -> Outcome<Event<P, S>>
  {
    (e: Event<U, S>) =>
      match e
      case Update(u) => (match transform(u) case Returned(p) => Returned(Update(p)) case Threw(x) => Threw(x))
      case Completion(c) => Returned(Completion(c))
  }

  /** `map` is `mapEvent` with a transform that leaves completions alone. */
  lemma MapIsMapEvent<U, S, P>(transform: U -> Outcome<P>, event: Event<U, S>)
    ensures MapHandler(transform, event) == MapEventHandler(UpdatesOnly<U, S, P>(transform), event)
  {
  }

  /** Running a handler over a drained channel: its updates, then its completion. */
  lemma DeriveTraceOf<U, S, B>(h: Event<U, S> -> seq<B>, d: Drained<U, S>)
    ensures Derive(h, TraceOf(d)) == Derive(h, Updates<U, S>(d.updates)) + h(Completion(d.completion))
  {
    DeriveSnoc(h, Updates<U, S>(d.updates), Completion(d.completion));
  }

  lemma DeriveUpdatesCons<U, S, B>(h: Event<U, S> -> seq<B>, us: seq<U>)
    requires us != []
    ensures Derive(h, Updates<U, S>(us)) == h(Update(us[0])) + Derive(h, Updates<U, S>(us[1..]))
  {
    assert Updates<U, S>(us)[1..] == Updates<U, S>(us[1..]);
  }

  /** A handler that only posts `ps` for the updates before `k` and fails with
      `e` on update `k`: subscribers see `ps`, then the failure, and nothing
      from the later updates or the completion. */
  lemma FirstFailureObserved<U, S, P>(h: Event<U, S> -> seq<Effect<P, S>>, d: Drained<U, S>, k: nat, ps: seq<P>, e: Error)
    requires k < |d.updates|
    requires Derive(h, Updates<U, S>(d.updates[..k])) == Emits<P, S>(ps)
    requires h(Update(d.updates[k])) == [Finish(Failure(e))]
    ensures Observed(Derive(h, TraceOf(d))) == View(ps, Some(Failure(e)))
  {
    var us := d.updates;
    var trace := TraceOf(d);
    assert trace == Updates<U, S>(us[..k]) + trace[k..];
    DeriveAppend(h, Updates<U, S>(us[..k]), trace[k..]);
    assert trace[k..] == [Update(us[k])] + trace[k + 1..];
    DeriveAppend(h, [Update(us[k])], trace[k + 1..]);
    assert Derive(h, [Update(us[k])]) == h(Update(us[k])) + Derive(h, []);
    assert Derive(h, trace) == Emits<P, S>(ps) + [Finish(Failure(e))] + Derive(h, trace[k + 1..]);
    ObservedEmitsThenFinish(ps, Failure(e), Derive(h, trace[k + 1..]));
  }

  /** The values a transform that never throws gives the updates, in order. */
  function Mapped<U, P>(transform: U -> Outcome<P>, us: seq<U>): (r: seq<P>)
    requires forall i :: 0 <= i < |us| ==> transform(us[i]).Returned?
    ensures |r| == |us|
    ensures forall i :: 0 <= i < |us| ==> r[i] == transform(us[i]).value
  {
    seq(|us|, i requires 0 <= i < |us| => transform(us[i]).value)
  }

  lemma {:induction false} MapUpdates<U, S, P>(transform: U -> Outcome<P>, us: seq<U>)
    requires forall i :: 0 <= i < |us| ==> transform(us[i]).Returned?
    ensures Derive((e: Event<U, S>) => MapHandler(transform, e), Updates<U, S>(us)) == Emits<P, S>(Mapped(transform, us))
    decreases |us|
  {
    var h := (e: Event<U, S>) => MapHandler(transform, e);
    if us != [] {
      DeriveUpdatesCons(h, us);
      MapUpdates<U, S, P>(transform, us[1..]);
      assert Mapped(transform, us) == [transform(us[0]).value] + Mapped(transform, us[1..]);
      EmitsAppend<P, S>([transform(us[0]).value], Mapped(transform, us[1..]));
    }
  }

  /** `map` over a channel whose transform never throws: each update is
      transformed in order, and the completion is forwarded unchanged. */
  lemma MapTrace<U, S, P>(transform: U -> Outcome<P>, d: Drained<U, S>)
    requires forall i :: 0 <= i < |d.updates| ==> transform(d.updates[i]).Returned?
    ensures Derive((e: Event<U, S>) => MapHandler(transform, e), TraceOf(d))
         == Emits<P, S>(Mapped(transform, d.updates)) + [Finish(d.completion)]
  {
    DeriveTraceOf((e: Event<U, S>) => MapHandler(transform, e), d);
    MapUpdates<U, S, P>(transform, d.updates);
  }

  /** `map` whose transform first throws `e` on update `k`: subscribers see the
      first `k` updates transformed, then the failure `e`, and nothing else. */
  lemma MapFirstThrow<U, S, P>(transform: U -> Outcome<P>, d: Drained<U, S>, k: nat)
    requires k < |d.updates|
    requires forall i :: 0 <= i < k ==> transform(d.updates[i]).Returned?
    requires transform(d.updates[k]).Threw?
    ensures Observed(Derive((e: Event<U, S>) => MapHandler(transform, e), TraceOf(d)))
         == View(Mapped(transform, d.updates[..k]), Some(Failure(transform(d.updates[k]).error)))
  {
    MapUpdates<U, S, P>(transform, d.updates[..k]);
    FirstFailureObserved((e: Event<U, S>) => MapHandler(transform, e), d, k,
                         Mapped(transform, d.updates[..k]), transform(d.updates[k]).error);
  }

  /** Doubling 1, 2, 3 then success(0) gives 2, 4, 6 then success(0). */
  lemma MapDoublesExample()
    ensures Derive((e: Event<int, int>) => MapHandler((x: int) => Returned(2 * x), e), TraceOf(Drained([1, 2, 3], Success(0))))
         == [Emit(2), Emit(4), Emit(6), Finish(Success(0))]
  {
    var t := (x: int) => Returned(2 * x);
    MapTrace<int, int, int>(t, Drained([1, 2, 3], Success(0)));
    assert Mapped(t, [1, 2, 3]) == [2, 4, 6];
  }

  // ----------------------------------------------------------------- flatMap

  /** `flatMap` to an optional: a non-nil result is posted, nil posts nothing,
      a completion is forwarded unchanged. */
  function FlatMapOptionalHandler<U, S, P>(transform: U -> Outcome<Option<P>>, event: Event<U, S>)
    : (r: seq<Effect<P, S>>)
    ensures event.Update? && transform(event.update) == Returned(None) ==> r == []
    ensures event.Update? && transform(event.update).Returned? && transform(event.update).value.Some?
            ==> r == [Emit(transform(event.update).value.value)]
    ensures event.Update? && transform(event.update).Threw? ==> r == [Finish(Failure(transform(event.update).error))]
    ensures event.Completion? ==> r == [Finish(event.completion)]
  {
    match event
    case Update(u) => AfterTry(transform(u), (v: Option<P>) => if v.Some? then [Emit(v.value)] else [])
    case Completion(c) => [Finish(c)]
  }

  /** The non-nil results of a transform that never throws, in order. */
  function NonNil<U, P>(transform: U -> Outcome<Option<P>>, us: seq<U>): (r: seq<P>)
    requires forall i :: 0 <= i < |us| ==> transform(us[i]).Returned?
    ensures |r| <= |us|
    decreases |us|
  {
    if us == [] then []
    else
      var v := transform(us[0]).value;
      (if v.Some? then [v.value] else []) + NonNil(transform, us[1..])
  }

  /** A value is among the non-nil results exactly when some update maps to it. */
  lemma {:induction false} NonNilMembers<U, P>(transform: U -> Outcome<Option<P>>, us: seq<U>, p: P)
    requires forall i :: 0 <= i < |us| ==> transform(us[i]).Returned?
    ensures p in NonNil(transform, us) <==> exists i :: 0 <= i < |us| && transform(us[i]) == Returned(Some(p))
    decreases |us|
  {
    if us != [] {
      NonNilMembers(transform, us[1..], p);
      if exists i :: 0 <= i < |us| && transform(us[i]) == Returned(Some(p)) {
        var i :| 0 <= i < |us| && transform(us[i]) == Returned(Some(p));
        if i > 0 {
          assert transform(us[1..][i - 1]) == Returned(Some(p));
        }
      }
      if exists i :: 0 <= i < |us[1..]| && transform(us[1..][i]) == Returned(Some(p)) {
        var i :| 0 <= i < |us[1..]| && transform(us[1..][i]) == Returned(Some(p));
        assert transform(us[i + 1]) == Returned(Some(p));
      }
    }
  }

  lemma {:induction false} FlatMapOptionalUpdates<U, S, P>(transform: U -> Outcome<Option<P>>, us: seq<U>)
    requires forall i :: 0 <= i < |us| ==> transform(us[i]).Returned?
    ensures Derive((e: Event<U, S>) => FlatMapOptionalHandler(transform, e), Updates<U, S>(us))
         == Emits<P, S>(NonNil(transform, us))
    decreases |us|
  {
    var h := (e: Event<U, S>) => FlatMapOptionalHandler(transform, e);
    if us != [] {
      DeriveUpdatesCons(h, us);
      FlatMapOptionalUpdates<U, S, P>(transform, us[1..]);
      var v := transform(us[0]).value;
      EmitsAppend<P, S>(if v.Some? then [v.value] else [], NonNil(transform, us[1..]));
    }
  }

  /** `flatMap` to an optional over a channel whose transform never throws:
      exactly the non-nil results are posted, in order, then the completion. */
  lemma FlatMapOptionalTrace<U, S, P>(transform: U -> Outcome<Option<P>>, d: Drained<U, S>)
    requires forall i :: 0 <= i < |d.updates| ==> transform(d.updates[i]).Returned?
    ensures Derive((e: Event<U, S>) => FlatMapOptionalHandler(transform, e), TraceOf(d))
         == Emits<P, S>(NonNil(transform, d.updates)) + [Finish(d.completion)]
  {
    DeriveTraceOf((e: Event<U, S>) => FlatMapOptionalHandler(transform, e), d);
    FlatMapOptionalUpdates<U, S, P>(transform, d.updates);
  }

  /** `flatMap` to an optional whose transform first throws `e` on update `k`:
      subscribers see the non-nil results of the first `k` updates, then the
      failure `e`, and nothing else. */
  lemma FlatMapOptionalFirstThrow<U, S, P>(transform: U -> Outcome<Option<P>>, d: Drained<U, S>, k: nat)
    requires k < |d.updates|
    requires forall i :: 0 <= i < k ==> transform(d.updates[i]).Returned?
    requires transform(d.updates[k]).Threw?
    ensures Observed(Derive((e: Event<U, S>) => FlatMapOptionalHandler(transform, e), TraceOf(d)))
         == View(NonNil(transform, d.updates[..k]), Some(Failure(transform(d.updates[k]).error)))
  {
    FlatMapOptionalUpdates<U, S, P>(transform, d.updates[..k]);
    FirstFailureObserved((e: Event<U, S>) => FlatMapOptionalHandler(transform, e), d, k,
                         NonNil(transform, d.updates[..k]), transform(d.updates[k]).error);
  }

  /** `flatMap` to a sequence (or to an event source, by its elements), without
      a key path: the elements are posted in order, a completion is forwarded. */
  function FlatMapSequenceHandler<U, S, P>(transform: U -> Outcome<seq<P>>, event: Event<U, S>)
    : (r: seq<Effect<P, S>>)
    ensures event.Update? && transform(event.update).Returned? ==> r == Emits(transform(event.update).value)
    ensures event.Update? && transform(event.update).Threw? ==> r == [Finish(Failure(transform(event.update).error))]
    ensures event.Completion? ==> r == [Finish(event.completion)]
  {
    match event
    case Update(u) => AfterTry(transform(u), (ps: seq<P>) => Emits(ps))
    case Completion(c) => [Finish(c)]
  }

  /** The results of a transform that never throws, concatenated in order. */
  function Concat<U, P>(transform: U -> Outcome<seq<P>>, us: seq<U>): seq<P>
    requires forall i :: 0 <= i < |us| ==> transform(us[i]).Returned?
    decreases |us|
  {
    if us == [] then [] else transform(us[0]).value + Concat(transform, us[1..])
  }

  lemma {:induction false} FlatMapSequenceUpdates<U, S, P>(transform: U -> Outcome<seq<P>>, us: seq<U>)
    requires forall i :: 0 <= i < |us| ==> transform(us[i]).Returned?
    ensures Derive((e: Event<U, S>) => FlatMapSequenceHandler(transform, e), Updates<U, S>(us))
         == Emits<P, S>(Concat(transform, us))
    decreases |us|
  {
    var h := (e: Event<U, S>) => FlatMapSequenceHandler(transform, e);
    if us != [] {
      DeriveUpdatesCons(h, us);
      FlatMapSequenceUpdates<U, S, P>(transform, us[1..]);
      EmitsAppend<P, S>(transform(us[0]).value, Concat(transform, us[1..]));
    }
  }

  /** `flatMap` to a sequence over a channel whose transform never throws: the
      elements of every result are posted, result after result, then the completion. */
  lemma FlatMapSequenceTrace<U, S, P>(transform: U -> Outcome<seq<P>>, d: Drained<U, S>)
    requires forall i :: 0 <= i < |d.updates| ==> transform(d.updates[i]).Returned?
    ensures Derive((e: Event<U, S>) => FlatMapSequenceHandler(transform, e), TraceOf(d))
         == Emits<P, S>(Concat(transform, d.updates)) + [Finish(d.completion)]
  {
    DeriveTraceOf((e: Event<U, S>) => FlatMapSequenceHandler(transform, e), d);
    FlatMapSequenceUpdates<U, S, P>(transform, d.updates);
  }

  /** `flatMap` to a sequence whose transform first throws `e` on update `k`:
      subscribers see the elements of the first `k` results, then the failure
      `e`, and nothing else. */
  lemma FlatMapSequenceFirstThrow<U, S, P>(transform: U -> Outcome<seq<P>>, d: Drained<U, S>, k: nat)
    requires k < |d.updates|
    requires forall i :: 0 <= i < k ==> transform(d.updates[i]).Returned?
    requires transform(d.updates[k]).Threw?
    ensures Observed(Derive((e: Event<U, S>) => FlatMapSequenceHandler(transform, e), TraceOf(d)))
         == View(Concat(transform, d.updates[..k]), Some(Failure(transform(d.updates[k]).error)))
  {
    FlatMapSequenceUpdates<U, S, P>(transform, d.updates[..k]);
    FirstFailureObserved((e: Event<U, S>) => FlatMapSequenceHandler(transform, e), d, k,
                         Concat(transform, d.updates[..k]), transform(d.updates[k]).error);
  }

  /** The completion handling of the `flatMap(context:catch:)` overloads: a
      success calls `succeed`; a failure is written into the context's error slot
      when a key path is given, and fails the derived producer otherwise. */
  function CatchingCompletion<P, S>(hasKeyPath: bool, completion: Fallible<S>): (r: seq<Effect<P, S>>)
    ensures completion.Success? ==> r == [Finish(completion)]
    ensures completion.Failure? && hasKeyPath ==> r == [StoreError(completion.error)]
    ensures completion.Failure? && !hasKeyPath ==> r == [Finish(completion)]
  {
    match completion
    case Success(s) => [Finish(Success(s))]
    case Failure(e) => if hasKeyPath then [StoreError(e)] else [Finish(Failure(e))]
  }

  /** `flatMap(context:catch:)` to an event source: its elements are posted in order. */
  function FlatMapSequenceCatchHandler<U, S, P>(hasKeyPath: bool, transform: U -> Outcome<seq<P>>, event: Event<U, S>)
    : (r: seq<Effect<P, S>>)
    ensures event.Update? ==> r == FlatMapSequenceHandler(transform, event)
    ensures event.Completion? ==> r == CatchingCompletion(hasKeyPath, event.completion)
  {
    match event
    case Update(u) => AfterTry(transform(u), (ps: seq<P>) => Emits(ps))
    case Completion(c) => CatchingCompletion(hasKeyPath, c)
  }

  /** `flatMap(context:catch:)` to a future: a resolved success is posted, a
      resolved failure fails the derived producer. */
  function FlatMapFutureCatchHandler<U, S, P>(hasKeyPath: bool, transform: U -> Fallible<P>, event: Event<U, S>)
    : (r: seq<Effect<P, S>>)
    ensures event.Update? && transform(event.update).Success? ==> r == [Emit(transform(event.update).value)]
    ensures event.Update? && transform(event.update).Failure? ==> r == [Finish(Failure(transform(event.update).error))]
    ensures event.Completion? ==> r == CatchingCompletion(hasKeyPath, event.completion)
  {
    match event
    case Update(u) => (match transform(u) case Success(p) => [Emit(p)] case Failure(e) => [Finish(Failure(e))])
    case Completion(c) => CatchingCompletion(hasKeyPath, c)
  }

  /** `flatMap` to a future (any `Completing`), without a key path: as above for
      updates, and a completion is forwarded unchanged. */
  function FlatMapFutureHandler<U, S, P>(transform: U -> Fallible<P>, event: Event<U, S>): (r: seq<Effect<P, S>>)
    ensures event.Update? && transform(event.update).Success? ==> r == [Emit(transform(event.update).value)]
    ensures event.Update? && transform(event.update).Failure? ==> r == [Finish(Failure(transform(event.update).error))]
    ensures event.Completion? ==> r == [Finish(event.completion)]
  {
    match event
    case Update(u) => (match transform(u) case Success(p) => [Emit(p)] case Failure(e) => [Finish(Failure(e))])
    case Completion(c) => [Finish(c)]
  }

  /** Waiting on the future and posting its success is `map` by `get()` of the
      resolved value, so every `map` lemma applies to it. */
  lemma FlatMapFutureIsMapOfGet<U, S, P>(transform: U -> Fallible<P>, event: Event<U, S>)
    ensures FlatMapFutureHandler(transform, event) == MapHandler((u: U) => Get(transform(u)), event)
  {
  }

  /** With a key path, an upstream failure never fails the derived channel: it
      is stored in the context instead; without one, it does. */
  lemma CatchAbsorbsUpstreamFailure<U, S, P>(transform: U -> Fallible<P>, t2: U -> Outcome<seq<P>>, e: Error)
    ensures FlatMapFutureCatchHandler<U, S, P>(true, transform, Completion(Failure(e))) == [StoreError(e)]
    ensures FlatMapSequenceCatchHandler<U, S, P>(true, t2, Completion(Failure(e))) == [StoreError(e)]
    ensures Observed(FlatMapFutureCatchHandler<U, S, P>(true, transform, Completion(Failure(e)))).completion == None
    ensures FlatMapFutureCatchHandler<U, S, P>(false, transform, Completion(Failure(e))) == [Finish(Failure(e))]
  {
    assert Observed<P, S>([StoreError(e)]) == Observed<P, S>([]);
  }

  // ------------------------------------------------------ completion mapping

  /** `mapCompletion`: updates pass unchanged; the completion is replaced by
      `fallible { try transform(completion) }`. */
  function MapCompletionHandler<U, S, T>(transform: Fallible<S> -> Outcome<T>, event: Event<U, S>)
    : (r: seq<Effect<U, T>>)
    ensures event.Update? ==> r == [Emit(event.update)]
    ensures event.Completion? ==> r == [Finish(FallibleOf(transform(event.completion)))]
  {
    match event
    case Update(u) => [Emit(u)]
    case Completion(c) => [Finish(FallibleOf(transform(c)))]
  }

  /** The completion transform of `mapSuccess`: `try value.get()`, then the transform. */
  function OnSuccessValue<S, T>(transform: S -> Outcome<T>, value: Fallible<S>): (r: Outcome<T>)
    ensures value.Failure? ==> r == Threw(value.error)
    ensures value.Success? ==> r == transform(value.value)
  {
    match Get(value)
    case Threw(e) => Threw(e)
    case Returned(s) => transform(s)
  }

  /** `mapSuccess`: `mapCompletion` whose transform rethrows a failure and
      transforms only a success. A failure keeps its error, a success becomes
      `fallible { try transform(success) }`, and updates pass unchanged. */
  function MapSuccessHandler<U, S, T>(transform: S -> Outcome<T>, event: Event<U, S>): (r: seq<Effect<U, T>>)
    ensures event.Update? ==> r == [Emit(event.update)]
    ensures event.Completion? && event.completion.Failure? ==> r == [Finish(Failure(event.completion.error))]
    ensures event.Completion? && event.completion.Success?
            ==> r == [Finish(FallibleOf(transform(event.completion.value)))]
  {
    MapCompletionHandler((v: Fallible<S>) => OnSuccessValue(transform, v), event)
  }

  lemma {:induction false} MapCompletionUpdates<U, S, T>(transform: Fallible<S> -> Outcome<T>, us: seq<U>)
    ensures Derive((e: Event<U, S>) => MapCompletionHandler(transform, e), Updates<U, S>(us)) == Emits<U, T>(us)
    decreases |us|
  {
    var h := (e: Event<U, S>) => MapCompletionHandler(transform, e);
    if us != [] {
      DeriveUpdatesCons(h, us);
      MapCompletionUpdates(transform, us[1..]);
      assert us == [us[0]] + us[1..];
      EmitsAppend<U, T>([us[0]], us[1..]);
    }
  }

  /** Over a whole channel, `mapCompletion` posts exactly the upstream updates and
      then the transformed completion. */
  lemma MapCompletionTrace<U, S, T>(transform: Fallible<S> -> Outcome<T>, d: Drained<U, S>)
    ensures Derive((e: Event<U, S>) => MapCompletionHandler(transform, e), TraceOf(d))
         == Emits<U, T>(d.updates) + [Finish(FallibleOf(transform(d.completion)))]
  {
    DeriveTraceOf((e: Event<U, S>) => MapCompletionHandler(transform, e), d);
    MapCompletionUpdates(transform, d.updates);
  }

  /** Over a whole channel, `mapSuccess` posts the upstream updates, then the
      upstream failure unchanged or the transformed success. */
  lemma MapSuccessTrace<U, S, T>(transform: S -> Outcome<T>, d: Drained<U, S>)
    ensures Derive((e: Event<U, S>) => MapSuccessHandler(transform, e), TraceOf(d))
         == Emits<U, T>(d.updates)
            + [Finish(if d.completion.Success? then FallibleOf(transform(d.completion.value))
                      else Failure(d.completion.error))]
  {
    var ct := (v: Fallible<S>) => OnSuccessValue(transform, v);
    DeriveSameHandler((e: Event<U, S>) => MapSuccessHandler(transform, e),
                      (e: Event<U, S>) => MapCompletionHandler(ct, e), TraceOf(d));
    MapCompletionTrace(ct, d);
  }

  // ------------------------------------------------------------------ filter

  /** `filter`: an update is forwarded unchanged when the predicate returns
      true, dropped when it returns false, and a thrown error fails the derived
      producer; a completion is forwarded unchanged. */
  function FilterHandler<U, S>(pred: U -> Outcome<bool>, event: Event<U, S>): (r: seq<Effect<U, S>>)
    ensures event.Update? ==> (r == [Emit(event.update)] <==> pred(event.update) == Returned(true))
    ensures event.Update? ==> (r == [] <==> pred(event.update) == Returned(false))
    ensures event.Update? && pred(event.update).Threw? ==> r == [Finish(Failure(pred(event.update).error))]
    ensures event.Completion? ==> r == [Finish(event.completion)]
  {
    match event
    case Update(u) =>
      (match pred(u)
       case Returned(keep) => if keep then [Emit(u)] else []
       case Threw(e) => [Finish(Failure(e))])
    case Completion(c) => [Finish(c)]
  }

  /** The `flatMap` transform that does what `filter` does. */
  function KeepIf<U>(pred: U -> Outcome<bool>): U -> Outcome<Option<U>>
  {
    (u: U) =>
      match pred(u)
      case Returned(keep) => Returned(if keep then Some(u) else None)
      case Threw(e) => Threw(e)
  }

  /** `filter` is `flatMap` to the update itself or nil. */
  lemma FilterIsFlatMapOptional<U, S>(pred: U -> Outcome<bool>, event: Event<U, S>)
    ensures FilterHandler(pred, event) == FlatMapOptionalHandler(KeepIf(pred), event)
  {
  }

  /** The updates a predicate that never throws keeps, in order. */
  function Kept<U>(pred: U -> Outcome<bool>, us: seq<U>): (r: seq<U>)
    requires forall i :: 0 <= i < |us| ==> pred(us[i]).Returned?
    ensures |r| <= |us|
    decreases |us|
  {
    if us == [] then []
    else (if pred(us[0]).value then [us[0]] else []) + Kept(pred, us[1..])
  }

  /** An update is kept exactly when it is among the updates and the predicate accepts it. */
  lemma {:induction false} KeptMembers<U>(pred: U -> Outcome<bool>, us: seq<U>, x: U)
    requires forall i :: 0 <= i < |us| ==> pred(us[i]).Returned?
    ensures x in Kept(pred, us) <==> x in us && pred(x) == Returned(true)
    decreases |us|
  {
    if us != [] {
      KeptMembers(pred, us[1..], x);
      assert x in us <==> x == us[0] || x in us[1..];
    }
  }

  lemma {:induction false} KeptIsNonNil<U>(pred: U -> Outcome<bool>, us: seq<U>)
    requires forall i :: 0 <= i < |us| ==> pred(us[i]).Returned?
    ensures forall i :: 0 <= i < |us| ==> KeepIf(pred)(us[i]).Returned?
    ensures Kept(pred, us) == NonNil(KeepIf(pred), us)
    decreases |us|
  {
    if us != [] {
      KeptIsNonNil(pred, us[1..]);
    }
  }

  /** Over updates whose predicate never throws, `filter` forwards exactly the
      accepted ones, in order. */
  lemma FilterUpdates<U, S>(pred: U -> Outcome<bool>, us: seq<U>)
    requires forall i :: 0 <= i < |us| ==> pred(us[i]).Returned?
    ensures Derive((e: Event<U, S>) => FilterHandler(pred, e), Updates<U, S>(us)) == Emits<U, S>(Kept(pred, us))
  {
    var h := (e: Event<U, S>) => FilterHandler(pred, e);
    var g := (e: Event<U, S>) => FlatMapOptionalHandler(KeepIf(pred), e);
    forall e: Event<U, S> ensures h(e) == g(e) {
      FilterIsFlatMapOptional(pred, e);
    }
    DeriveSameHandler(h, g, Updates<U, S>(us));
    KeptIsNonNil(pred, us);
    FlatMapOptionalUpdates<U, S, U>(KeepIf(pred), us);
  }

  /** `filter` over a channel whose predicate never throws: exactly the accepted
      updates are forwarded, in order, then the completion. */
  lemma FilterTrace<U, S>(pred: U -> Outcome<bool>, d: Drained<U, S>)
    requires forall i :: 0 <= i < |d.updates| ==> pred(d.updates[i]).Returned?
    ensures Derive((e: Event<U, S>) => FilterHandler(pred, e), TraceOf(d))
         == Emits<U, S>(Kept(pred, d.updates)) + [Finish(d.completion)]
  {
    DeriveTraceOf((e: Event<U, S>) => FilterHandler(pred, e), d);
    FilterUpdates<U, S>(pred, d.updates);
  }

  /** `filter` whose predicate first throws `e` on update `k`: subscribers see
      the accepted updates among the first `k`, then the failure `e`, and
      nothing else. */
  lemma FilterFirstThrow<U, S>(pred: U -> Outcome<bool>, d: Drained<U, S>, k: nat)
    requires k < |d.updates|
    requires forall i :: 0 <= i < k ==> pred(d.updates[i]).Returned?
    requires pred(d.updates[k]).Threw?
    ensures Observed(Derive((e: Event<U, S>) => FilterHandler(pred, e), TraceOf(d)))
         == View(Kept(pred, d.updates[..k]), Some(Failure(pred(d.updates[k]).error)))
  {
    FilterUpdates<U, S>(pred, d.updates[..k]);
    FirstFailureObserved((e: Event<U, S>) => FilterHandler(pred, e), d, k,
                         Kept(pred, d.updates[..k]), pred(d.updates[k]).error);
  }

  // --------------------------------------------------------------- unwrapped

  /** `unwrapped`: `map` by `get()` on updates that are themselves fallibles. */
  function UnwrappedHandler<X, S>(event: Event<Fallible<X>, S>): (r: seq<Effect<X, S>>)
    ensures event.Update? && event.update.Success? ==> r == [Emit(event.update.value)]
    ensures event.Update? && event.update.Failure? ==> r == [Finish(Failure(event.update.error))]
    ensures event.Completion? ==> r == [Finish(event.completion)]
  {
    MapHandler((f: Fallible<X>) => Get(f), event)
  }
}
