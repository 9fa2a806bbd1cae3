/**
 AsyncNinja's array reducers over future-returning blocks
 (Sources/AsyncNinja/Array+Future.swift): the sequential `reduce`, the
 `flatMap` dispatch, `flatMapSequential`, `flatMapToChannel`, `aggregateFuture`
 and the copying `+=` on arrays. A future a block returns is modelled by the
 `Fallible` it resolves to, and `wait()` on it by that value.

 A promise is modelled by the completions it is handed, in order. The future
 resolves to the first of them (`Resolution`); that promises ignore later
 completions is a rule of code outside this model.
 */
module ArrayFuture {
  import opened SwiftStdlib
  import opened Fallibles
  import opened Concurrency
  import opened EventSource
  import opened ArrayBuffer

  /** What a future resolves to, given the completions its promise was handed in order. */
  function Resolution<A>(completions: seq<Fallible<A>>): (r: Option<Fallible<A>>)
    ensures r.None? <==> completions == []
    ensures r.Some? ==> r.value == completions[0]
  {
    if completions == [] then None else Some(completions[0])
  }

  // ------------------------------------------------------------------ reduce

  /** Where `Array.reduce` stands after some items: the accumulator, and the
      errors it has failed the promise with so far. */
  datatype Reduced<A> = Reduced(accum: A, errors: seq<Error>)

  /** The loop of `Array.reduce`, from accumulator `a` over `items`: a success
      becomes the new accumulator, a failure fails the promise and leaves the
      accumulator as it was. */
  function ReduceFrom<A, E>(a: A, items: seq<E>, block: (A, E) -> Fallible<A>): Reduced<A>
    decreases |items|
  {
    if items == [] then Reduced(a, [])
    else match block(a, items[0])
      case Success(s) => ReduceFrom(s, items[1..], block)
      case Failure(e) =>
        var rest := ReduceFrom(a, items[1..], block);
        Reduced(rest.accum, [e] + rest.errors)
  }

  /** The completions `Array.reduce` hands its promise: one `fail` per failing
      item in order, then `succeed` with the final accumulator. */
  function ReduceCompletions<A, E>(a: A, items: seq<E>, block: (A, E) -> Fallible<A>): (r: seq<Fallible<A>>)
    ensures |r| == |ReduceFrom(a, items, block).errors| + 1
    ensures r[|r| - 1] == Success(ReduceFrom(a, items, block).accum)
    ensures forall i :: 0 <= i < |r| - 1 ==> r[i] == Failure(ReduceFrom(a, items, block).errors[i])
  {
    var red := ReduceFrom(a, items, block);
    seq(|red.errors|, i requires 0 <= i < |red.errors| => Failure(red.errors[i])) + [Success(red.accum)]
  }

  /** `Array.reduce(_:_:)`: runs the block on each item in order and waits for it. */
  method Reduce<A, E>(a: A, items: seq<E>, block: (A, E) -> Fallible<A>) returns (completions: seq<Fallible<A>>)
    ensures completions == ReduceCompletions(a, items, block)
  {
    var acc := a;
    ghost var errors: seq<Error> := [];
    completions := [];
    for i := 0 to |items|
      invariant |completions| == |errors|
      invariant forall j :: 0 <= j < |errors| ==> completions[j] == Failure(errors[j])
      invariant ReduceFrom(a, items, block)
             == Reduced(ReduceFrom(acc, items[i..], block).accum, errors + ReduceFrom(acc, items[i..], block).errors)
    {
      assert items[i..][1..] == items[i + 1..];
      match block(acc, items[i]) {
        case Success(s) =>
          acc := s;
        case Failure(err) =>
          completions := completions + [Failure(err)];
          errors := errors + [err];
      }
    }
    completions := completions + [Success(acc)];
  }

  /** The accumulator step of `Array.reduce`: a success replaces it, a failure keeps it. */
  function KeepOnFailure<A, E>(block: (A, E) -> Fallible<A>): (A, E) -> A
  {
    (x: A, e: E) => if block(x, e).Success? then block(x, e).value else x
  }

  /** Whether the block succeeds on every item, from accumulator `a`. */
  predicate NeverFails<A, E>(block: (A, E) -> Fallible<A>, a: A, items: seq<E>)
    decreases |items|
  {
    items == [] || (block(a, items[0]).Success? && NeverFails(block, block(a, items[0]).value, items[1..]))
  }

  /** The final accumulator is the left fold over the items of the step that
      keeps the accumulator on a failure; the promise is failed exactly when
      some block fails. */
  lemma {:induction false} ReduceIsFoldLeft<A, E>(a: A, items: seq<E>, block: (A, E) -> Fallible<A>)
    ensures ReduceFrom(a, items, block).accum == FoldLeft(KeepOnFailure(block), a, items)
    ensures ReduceFrom(a, items, block).errors == [] <==> NeverFails(block, a, items)
    decreases |items|
  {
    if items != [] {
      var step := KeepOnFailure(block);
      assert step(a, items[0]) == if block(a, items[0]).Success? then block(a, items[0]).value else a;
      match block(a, items[0]) {
        case Success(s) => ReduceIsFoldLeft(s, items[1..], block);
        case Failure(_) => ReduceIsFoldLeft(a, items[1..], block);
      }
    }
  }

  /** When every block succeeds, `reduce` resolves to the left fold of the
      resolved values; otherwise it resolves to the first failure. */
  lemma ReduceResolves<A, E>(a: A, items: seq<E>, block: (A, E) -> Fallible<A>)
    ensures NeverFails(block, a, items) ==>
      Resolution(ReduceCompletions(a, items, block)) == Some(Success(FoldLeft(KeepOnFailure(block), a, items)))
    ensures !NeverFails(block, a, items) ==>
      ReduceFrom(a, items, block).errors != [] &&
      Resolution(ReduceCompletions(a, items, block)) == Some(Failure(ReduceFrom(a, items, block).errors[0]))
  {
    ReduceIsFoldLeft(a, items, block);
  }

  // ----------------------------------------------------------------- flatMap

  /** Which implementation `flatMap(_:_:)` hands the work to. */
  datatype Route = ConcurrentPath(concurrency: Concurrency) | SequentialPath

  /** `flatMap(_:_:)`: `.sequential` goes to `flatMapSequential`, `.concurent(c)`
      to the concurrent implementation with `c`. */
  function FlatMapRoute(exe: Execution): (r: Route)
    ensures r == SequentialPath <==> exe == Sequential
    ensures exe.Concurent? ==> r == ConcurrentPath(exe.concurrency)
  {
    match exe
    case Concurent(c) => ConcurrentPath(c)
    case Sequential => SequentialPath
  }

  /** With its default argument, `flatMap` takes the concurrent path with `.auto`. */
  lemma FlatMapDefaultIsConcurrentAuto()
    ensures FlatMapRoute(DefaultConcurent()) == ConcurrentPath(Auto)
  {
  }

  /** The resolved results of the block on the items, in order. */
  function Results<E, T>(block: E -> Fallible<T>, items: seq<E>): (r: seq<Fallible<T>>)
    ensures |r| == |items|
    ensures forall i :: 0 <= i < |items| ==> r[i] == block(items[i])
  {
    seq(|items|, i requires 0 <= i < |items| => block(items[i]))
  }

  /** The success values among `rs`, in order. */
  function SuccessValues<T>(rs: seq<Fallible<T>>): (r: seq<T>)
    ensures |r| <= |rs|
    decreases |rs|
  {
    if rs == [] then []
    else (if rs[0].Success? then [rs[0].value] else []) + SuccessValues(rs[1..])
  }

  /** The errors among `rs`, in order. */
  function FailureErrors<T>(rs: seq<Fallible<T>>): (r: seq<Error>)
    ensures |r| <= |rs|
    decreases |rs|
  {
    if rs == [] then []
    else (if rs[0].Failure? then [rs[0].error] else []) + FailureErrors(rs[1..])
  }

  lemma SuccessValuesSnoc<T>(rs: seq<Fallible<T>>, x: Fallible<T>)
    ensures SuccessValues(rs + [x]) == SuccessValues(rs) + (if x.Success? then [x.value] else [])
    ensures FailureErrors(rs + [x]) == FailureErrors(rs) + (if x.Failure? then [x.error] else [])
    decreases |rs|
  {
    if rs != [] {
      assert (rs + [x])[1..] == rs[1..] + [x];
      SuccessValuesSnoc(rs[1..], x);
    }
  }

  /** With no failure among them, the success values are all the values, index by index. */
  lemma {:induction false} AllSucceeded<T>(rs: seq<Fallible<T>>)
    ensures FailureErrors(rs) == [] <==> forall i :: 0 <= i < |rs| ==> rs[i].Success?
    ensures FailureErrors(rs) == [] ==>
      |SuccessValues(rs)| == |rs| && forall i :: 0 <= i < |rs| ==> SuccessValues(rs)[i] == rs[i].value
    decreases |rs|
  {
    if rs != [] {
      AllSucceeded(rs[1..]);
      if FailureErrors(rs) == [] {
        forall i | 0 <= i < |rs| ensures SuccessValues(rs)[i] == rs[i].value {
          if i > 0 {
            assert rs[1..][i - 1] == rs[i];
          }
        }
      }
      if forall i :: 0 <= i < |rs| ==> rs[i].Success? {
        assert forall i :: 0 <= i < |rs[1..]| ==> rs[1..][i] == rs[i + 1];
      }
    }
  }

  /** The first error among `rs` is that of the first failing result. */
  lemma {:induction false} FirstFailure<T>(rs: seq<Fallible<T>>)
    requires FailureErrors(rs) != []
    ensures exists k :: 0 <= k < |rs| && rs[k] == Failure(FailureErrors(rs)[0])
                        && forall j :: 0 <= j < k ==> rs[j].Success?
    decreases |rs|
  {
    if rs[0].Success? {
      FirstFailure(rs[1..]);
      var k :| 0 <= k < |rs[1..]| && rs[1..][k] == Failure(FailureErrors(rs[1..])[0])
               && forall j :: 0 <= j < k ==> rs[1..][j].Success?;
      assert rs[k + 1] == Failure(FailureErrors(rs)[0]);
      assert forall j :: 0 <= j < k + 1 ==> rs[j].Success? by {
        forall j | 0 <= j < k + 1 ensures rs[j].Success? {
          if j > 0 {
            assert rs[j] == rs[1..][j - 1];
          }
        }
      }
    } else {
      assert rs[0] == Failure(FailureErrors(rs)[0]);
    }
  }

  /** `flatMapSequential`: `reduce` from a fresh `ArrayWrapper`, each block's
      success appended with `+=`, then the future mapped to the wrapper's array.
      Because `+=` returns the receiver, the accumulator is that one wrapper all
      along. The result is every resolved value in item order, or the first
      failure. */
  method FlatMapSequential<E, T>(items: seq<E>, block: E -> Fallible<T>) returns (r: Fallible<seq<T>>)
    ensures r.Success? <==> forall i :: 0 <= i < |items| ==> block(items[i]).Success?
    ensures r.Success? ==> |r.value| == |items| && forall i :: 0 <= i < |items| ==> r.value[i] == block(items[i]).value
    ensures r.Failure? ==> exists k :: 0 <= k < |items| && block(items[k]) == Failure(r.error)
                                       && forall j :: 0 <= j < k ==> block(items[j]).Success?
  {
    var wrapper := new ArrayWrapper<T>(|items|);
    var acc := wrapper;
    var completions: seq<Fallible<ArrayWrapper<T>>> := [];
    ghost var rs := Results(block, items);
    for i := 0 to |items|
      invariant acc == wrapper
      invariant wrapper.contents == SuccessValues(rs[..i])
      invariant |completions| == |FailureErrors(rs[..i])|
      invariant forall j :: 0 <= j < |completions| ==> completions[j] == Failure(FailureErrors(rs[..i])[j])
    {
      assert rs[..i + 1] == rs[..i] + [rs[i]];
      SuccessValuesSnoc(rs[..i], rs[i]);
      match block(items[i]) {
        case Success(v) =>
          acc := acc.AppendElement(v);
        case Failure(err) =>
          completions := completions + [Failure(err)];
      }
    }
    completions := completions + [Success(acc)];
    assert rs[..|items|] == rs;
    AllSucceeded(rs);
    match completions[0] {
      case Success(w) =>
        r := Success(w.contents);
      case Failure(err) =>
        FirstFailure(rs);
        r := Failure(err);
    }
  }

  /** `aggregateFuture()`: `flatMapSequential` with the identity block, so it
      resolves to all the futures' values in order, or to the first failure. */
  method AggregateFuture<T>(futures: seq<Fallible<T>>) returns (r: Fallible<seq<T>>)
    ensures r.Success? <==> forall i :: 0 <= i < |futures| ==> futures[i].Success?
    ensures r.Success? ==> |r.value| == |futures| && forall i :: 0 <= i < |futures| ==> r.value[i] == futures[i].value
    ensures r.Failure? ==> exists k :: 0 <= k < |futures| && futures[k] == Failure(r.error)
                                       && forall j :: 0 <= j < k ==> futures[j].Success?
  {
    r := FlatMapSequential(futures, (f: Fallible<T>) => f);
  }

  // ------------------------------------------------------- flatMapToChannel

  /** The calls `flatMapToChannel` makes for one item, as written: a success is
      posted; a failure always fails the producer, and then is written into the
      context's error slot when a key path is given, or fails the producer a
      second time when not. */
  function ItemEffectsAsWritten<T>(hasKeyPath: bool, result: Fallible<T>): (r: seq<Effect<T, ()>>)
    ensures result.Success? ==> r == [Emit(result.value)]
    ensures result.Failure? ==> |r| == 2 && r[0] == Finish(Failure(result.error))
    ensures result.Failure? && hasKeyPath ==> r[1] == StoreError(result.error)
    ensures result.Failure? && !hasKeyPath ==> r[1] == Finish(Failure(result.error))
  {
    match result
    case Success(s) => [Emit(s)]
    case Failure(e) => [Finish(Failure(e))] + (if hasKeyPath then [StoreError(e)] else [Finish(Failure(e))])
  }

  /** `flatMapToChannel(context:catch:block:)`, as written: the items in order,
      each block waited for, then `succeed(())`. */
  method FlatMapToChannel<E, T>(items: seq<E>, hasKeyPath: bool, block: E -> Fallible<T>) returns (producer: Producer<T, ()>)
    ensures fresh(producer)
    ensures producer.log
         == Derive((x: Fallible<T>) => ItemEffectsAsWritten(hasKeyPath, x), Results(block, items)) + [Finish(Success(()))]
  {
    producer := new Producer<T, ()>();
    ghost var h := (x: Fallible<T>) => ItemEffectsAsWritten(hasKeyPath, x);
    ghost var rs := Results(block, items);
    for i := 0 to |items|
      invariant producer.log == Derive(h, rs[..i])
    {
      assert rs[..i + 1] == rs[..i] + [rs[i]];
      DeriveSnoc(h, rs[..i], rs[i]);
      match block(items[i]) {
        case Success(s) =>
          producer.Update(s);
        case Failure(err) =>
          producer.Fail(err);
          if hasKeyPath {
            producer.StoreContextError(err);
          } else {
            producer.Fail(err);
          }
      }
    }
    assert rs[..|items|] == rs;
    producer.Succeed(());
  }

  /** The calls for one item as the key path evidently intends: a failure goes to
      the context's error slot when a key path is given, and fails the producer
      only when not (as `EventSource.flatMap(context:catch:)` does). */
  function ItemEffects<T>(hasKeyPath: bool, result: Fallible<T>): (r: seq<Effect<T, ()>>)
    ensures result.Success? ==> r == [Emit(result.value)]
    ensures result.Failure? && hasKeyPath ==> r == [StoreError(result.error)]
    ensures result.Failure? && !hasKeyPath ==> r == [Finish(Failure(result.error))]
  {
    match result
    case Success(s) => [Emit(s)]
    case Failure(e) => if hasKeyPath then [StoreError(e)] else [Finish(Failure(e))]
  }

  /** The log of `flatMapToChannel` with the corrected per-item calls. */
  function FlatMapToChannelLog<T>(hasKeyPath: bool, rs: seq<Fallible<T>>): seq<Effect<T, ()>>
  {
    Derive((x: Fallible<T>) => ItemEffects(hasKeyPath, x), rs) + [Finish(Success(()))]
  }

  /** As written, a key path does not keep a failing item from failing the
      channel: one failing item is enough for subscribers to see the failure. */
  lemma KeyPathDoesNotAbsorbFailure<T>(f: Fallible<T>)
    requires f.Failure?
    ensures Observed(Derive((x: Fallible<T>) => ItemEffectsAsWritten(true, x), [f]) + [Finish(Success(()))])
         == View([], Some(Failure(f.error)))
    ensures Observed(FlatMapToChannelLog(true, [f])) == View([], Some(Success(())))
  {
    var hw := (x: Fallible<T>) => ItemEffectsAsWritten(true, x);
    DeriveSnoc(hw, [], f);
    assert [] + [f] == [f];
    var hc := (x: Fallible<T>) => ItemEffects(true, x);
    DeriveSnoc(hc, [], f);
  }

  lemma {:induction false} CorrectedItemsObserved<T>(hasKeyPath: bool, rs: seq<Fallible<T>>)
    ensures hasKeyPath ==>
      Observed(Derive((x: Fallible<T>) => ItemEffects(hasKeyPath, x), rs)) == View(SuccessValues(rs), None)
    ensures !hasKeyPath && FailureErrors(rs) == [] ==>
      Observed(Derive((x: Fallible<T>) => ItemEffects(hasKeyPath, x), rs)) == View(SuccessValues(rs), None)
    decreases |rs|
  {
    if rs != [] {
      CorrectedItemsObserved(hasKeyPath, rs[1..]);
      var h := (x: Fallible<T>) => ItemEffects(hasKeyPath, x);
      ObservedAppend(h(rs[0]), Derive(h, rs[1..]));
    }
  }

  /** With the corrected calls and a key path, the channel posts every success in
      order and then succeeds, whatever fails; without a key path and with no
      failure, the same. */
  lemma CorrectedFlatMapToChannel<T>(hasKeyPath: bool, rs: seq<Fallible<T>>)
    requires hasKeyPath || FailureErrors(rs) == []
    ensures Observed(FlatMapToChannelLog(hasKeyPath, rs)) == View(SuccessValues(rs), Some(Success(())))
  {
    var body := Derive((x: Fallible<T>) => ItemEffects(hasKeyPath, x), rs);
    CorrectedItemsObserved(hasKeyPath, rs);
    ObservedAppend(body, [Finish(Success(()))]);
  }

  // ----------------------------------------------------------- Array +=

  /** `+=` on a Swift array (a value): a copy with the element appended; the
      left operand is a value and is not changed. */
  function Appended<T>(left: seq<T>, right: T): (r: seq<T>)
    ensures |r| == |left| + 1
    ensures r[..|left|] == left
    ensures r[|left|] == right
  {
    left + [right]
  }
}
