/**
 Folding a channel and cursor pagination (Sources/AsyncNinja/EventSource_Folding.swift).
 Each works on drained channels: `waitForAll()` is modelled by the
 `Drained(updates, completion)` it returns, and a future by the `Fallible`
 it resolves to.
 */
module EventSourceFolding {
  import opened SwiftStdlib
  import opened Fallibles
  import opened EventSource
  import opened ArrayFuture

  // ------------------------------------------------------------------ reduce

  /** `Channel.reduce(_:_:)`: on a successful upstream, the left fold of the
      block over the updates in order, from `a`; on a failed upstream, that
      failure. */
  method Reduce<A, U, S>(a: A, block: (A, U) -> A, drained: Drained<U, S>) returns (r: Fallible<A>)
    ensures drained.completion.Success? ==> r == Success(FoldLeft(block, a, drained.updates))
    ensures drained.completion.Failure? ==> r == Failure(drained.completion.error)
  {
    var updates := drained.updates;
    match drained.completion {
      case Success(_) =>
        var accum := a;
        for i := 0 to |updates|
          invariant accum == FoldLeft(block, a, updates[..i])
        {
          assert updates[..i + 1] == updates[..i] + [updates[i]];
          FoldLeftSnoc(block, a, updates[..i], updates[i]);
          accum := block(accum, updates[i]);
        }
        assert updates[..|updates|] == updates;
        r := Success(accum);
      case Failure(error) =>
        r := Failure(error);
    }
  }

  /** `Channel.reduce(_:block:)` with a future-returning block: on a successful
      upstream, what `Array.reduce` over the updates resolves to — the fold of
      the resolved values when no block fails, and the first failure otherwise;
      on a failed upstream, that failure. */
  method ReduceFuture<A, U, S>(a: A, block: (A, U) -> Fallible<A>, drained: Drained<U, S>) returns (r: Fallible<A>)
    ensures drained.completion.Failure? ==> r == Failure(drained.completion.error)
    ensures drained.completion.Success? && NeverFails(block, a, drained.updates) ==>
      r == Success(FoldLeft(KeepOnFailure(block), a, drained.updates))
    ensures drained.completion.Success? && !NeverFails(block, a, drained.updates) ==>
      ReduceFrom(a, drained.updates, block).errors != [] && r == Failure(ReduceFrom(a, drained.updates, block).errors[0])
  {
    match drained.completion {
      case Success(_) =>
        var completions := ArrayFuture.Reduce(a, drained.updates, block);
        ReduceResolves(a, drained.updates, block);
        r := completions[0];
      case Failure(error) =>
        r := Failure(error);
    }
  }

  /** A plain block, as a future-returning block that always succeeds. */
  function Lifted<A, U>(block: (A, U) -> A): (A, U) -> Fallible<A>
  {
    (x: A, u: U) => Success(block(x, u))
  }

  /** A block that never fails folds as the plain block does: the two `reduce`
      overloads agree on it. */
  lemma {:induction false} LiftedReduceIsReduce<A, U>(block: (A, U) -> A, a: A, us: seq<U>)
    ensures NeverFails(Lifted(block), a, us)
    ensures FoldLeft(KeepOnFailure(Lifted(block)), a, us) == FoldLeft(block, a, us)
    decreases |us|
  {
    if us != [] {
      assert Lifted(block)(a, us[0]) == Success(block(a, us[0]));
      assert KeepOnFailure(Lifted(block))(a, us[0]) == block(a, us[0]);
      LiftedReduceIsReduce(block, block(a, us[0]), us[1..]);
    }
  }

  // ------------------------------------------------------------------- foldr

  /** The calls `foldr` makes on its producer: one update with the left fold of
      all updates when there is at least one update, then the upstream completion. */
  function FoldrEffects<A, U, S>(a: A, block: (A, U) -> A, drained: Drained<U, S>): (r: seq<Effect<A, S>>)
    ensures Observed(r) == View(if |drained.updates| > 0 then [FoldLeft(block, a, drained.updates)] else [],
                                Some(drained.completion))
    ensures |r| == if |drained.updates| > 0 then 2 else 1
  {
    (if |drained.updates| > 0 then [Emit(FoldLeft(block, a, drained.updates))] else []) + [Finish(drained.completion)]
  }

  /** `foldr(_:_:)`: a fresh producer that receives `FoldrEffects`. */
  method Foldr<A, U, S>(a: A, block: (A, U) -> A, drained: Drained<U, S>) returns (producer: Producer<A, S>)
    ensures fresh(producer)
    ensures producer.log == FoldrEffects(a, block, drained)
  {
    producer := new Producer<A, S>();
    if |drained.updates| > 0 {
      producer.Update(FoldLeft(block, a, drained.updates));
    }
    producer.Complete(drained.completion);
  }

  /** On a successful upstream, `foldr` posts one update exactly when there
      were updates, and that update is the value `reduce` resolves to. */
  method FoldrPostsReduce<A, U, S>(a: A, block: (A, U) -> A, drained: Drained<U, S>)
    returns (reduced: Fallible<A>, posted: seq<A>)
    ensures drained.completion.Success? ==>
      reduced.Success? && posted == if |drained.updates| > 0 then [reduced.value] else []
    ensures drained.completion.Failure? ==> reduced.Failure? && |posted| <= 1
  {
    reduced := Reduce(a, block, drained);
    var producer := Foldr(a, block, drained);
    posted := Observed(producer.log).updates;
  }

  // ------------------------------------------------------------------ cursor

  /** A page: what `waitForAll()` returns for one request, the elements and the next cursor or nil. */
  type Page<U, C> = Drained<U, Option<C>>

  /** The element a page yields: its updates when there are any, nil otherwise. */
  function PageElement<U, C>(page: Page<U, C>): (r: Option<seq<U>>)
    ensures r.Some? <==> |page.updates| > 0
    ensures r.Some? ==> r.value == page.updates
  {
    if |page.updates| > 0 then Some(page.updates) else None
  }

  /** Which helper `update(element:completion:)` a run uses: the one as written,
      or the one its `guard ... else { succeed() }` evidently intends. */
  datatype Helper = AsWritten | Intended

  /** The calls the helper makes: the element, if any, is posted first; then a
      failure fails the producer. On `success(nil)` the helper as written makes
      no call: `completion.maybeSuccess` is a `Cursor??`, so its `guard let`
      binds the inner nil and the `else { succeed() }` branch never runs. The
      intended helper succeeds there. */
  function StepEffects<U, C>(helper: Helper, element: Option<seq<U>>, completion: Fallible<Option<C>>)
    : (r: seq<Effect<seq<U>, ()>>)
    ensures |r| <= 2
    ensures element.Some? <==> r != [] && r[0].Emit?
    ensures element.Some? ==> r[0] == Emit(element.value)
    ensures r != [] && r[|r| - 1].Finish? <==>
              completion.Failure? || (helper == Intended && completion == Success(None))
    ensures completion.Failure? ==> r[|r| - 1] == Finish(Failure(completion.error))
    ensures helper == Intended && completion == Success(None) ==> r[|r| - 1] == Finish(Success(()))
  {
    (if element.Some? then [Emit(element.value)] else [])
    + (match completion
       case Failure(e) => [Finish(Failure(e))]
       case Success(None) => if helper == Intended then [Finish(Success(()))] else []
       case Success(Some(_)) => [])
  }

  /** What the helper returns: the next cursor, or nil. */
  function StepNext<C>(completion: Fallible<Option<C>>): (r: Option<C>)
    ensures r.Some? <==> completion.Success? && completion.value.Some?
    ensures r.Some? ==> r.value == completion.value.value
  {
    match completion
    case Success(Some(c)) => Some(c)
    case _ => None
  }

  /** As written, the helper completes its producer exactly when the page failed,
      and then with that failure; the element, if any, is posted first. */
  lemma StepCompletesIffFailed<U, C>(element: Option<seq<U>>, completion: Fallible<Option<C>>)
    ensures Observed(StepEffects(AsWritten, element, completion)).completion
         == if completion.Failure? then Some(Failure(completion.error)) else None
    ensures Observed(StepEffects(AsWritten, element, completion)).updates
         == if element.Some? then [element.value] else []
  {
  }

  /** The intended helper completes its producer exactly when it returns nil. */
  lemma IntendedStepCompletesIffNil<U, C>(element: Option<seq<U>>, completion: Fallible<Option<C>>)
    ensures Observed(StepEffects(Intended, element, completion)).completion.Some? <==> StepNext(completion).None?
    ensures Observed(StepEffects(Intended, element, completion)).updates
         == if element.Some? then [element.value] else []
  {
  }

  /** `Producer.update(element:completion:)`, as written. */
  method UpdateWithCursor<U, C>(producer: Producer<seq<U>, ()>, element: Option<seq<U>>, completion: Fallible<Option<C>>)
    returns (next: Option<C>)
    modifies producer
    ensures producer.log == old(producer.log) + StepEffects(AsWritten, element, completion)
    ensures next == StepNext(completion)
  {
    if element.Some? {
      producer.Update(element.value);
    }
    if completion.Failure? {
      producer.Fail(completion.error);
      return None;
    }
    // the `guard let` succeeds on every success, binding the optional cursor
    next := completion.value;
  }

  /** A pagination run: the cursors requested in order, the calls made on the
      producer, and whether the loop stopped (rather than running out of fuel). */
  datatype Run<C, U> = Run(requests: seq<C>, log: seq<Effect<seq<U>, ()>>, stopped: bool)

  /** The pagination loop from the request for `c`, allowing `fuel` more requests after it. */
  function Paginate<C, U>(helper: Helper, block: C -> Page<U, C>, c: C, fuel: nat): (r: Run<C, U>)
    ensures 1 <= |r.requests| <= fuel + 1
    ensures r.requests[0] == c
    ensures r.stopped ==> StepNext(block(r.requests[|r.requests| - 1]).completion).None?
    decreases fuel, 1
  {
    var page := block(c);
    var rest := Continue(helper, block, StepNext(page.completion), fuel);
    Run([c] + rest.requests, StepEffects(helper, PageElement(page), page.completion) + rest.log, rest.stopped)
  }

  /** The loop after the helper returned `next`, with `fuel` requests left. */
  function Continue<C, U>(helper: Helper, block: C -> Page<U, C>, next: Option<C>, fuel: nat): (r: Run<C, U>)
    ensures |r.requests| <= fuel
    ensures r.requests == [] <==> next.None? || fuel == 0
    ensures r.requests != [] ==> r.requests[0] == next.value
    ensures r.requests == [] ==> (r.stopped <==> next.None?)
    ensures r.stopped && r.requests != [] ==> StepNext(block(r.requests[|r.requests| - 1]).completion).None?
    decreases fuel, 0
  {
    if next.None? then Run([], [], true)
    else if fuel == 0 then Run([], [], false)
    else Paginate(helper, block, next.value, fuel - 1)
  }

  /** How the loop's stop on a page is seen: the page's failure; otherwise
      success with the intended helper, and nothing with the helper as written. */
  function StopSeen<C>(helper: Helper, completion: Fallible<Option<C>>): Option<Fallible<()>>
  {
    if completion.Failure? then Some(Failure(completion.error))
    else if helper == Intended then Some(Success(()))
    else None
  }

  /** The non-empty pages among the answers to `requests`, in order. */
  function NonEmptyPages<C, U>(block: C -> Page<U, C>, requests: seq<C>): seq<seq<U>>
    decreases |requests|
  {
    if requests == [] then []
    else (if |block(requests[0]).updates| > 0 then [block(requests[0]).updates] else [])
         + NonEmptyPages(block, requests[1..])
  }

  /** The first request uses the initial cursor; each later request uses the
      cursor the previous page returned; the loop stops exactly when a page
      returns no cursor, and then on the last request. */
  lemma {:induction false} PaginateRequests<C, U>(helper: Helper, block: C -> Page<U, C>, c: C, fuel: nat)
    ensures var run := Paginate(helper, block, c, fuel);
      && 1 <= |run.requests| <= fuel + 1
      && run.requests[0] == c
      && (forall i :: 0 <= i < |run.requests| - 1 ==>
            StepNext(block(run.requests[i]).completion) == Some(run.requests[i + 1]))
      && (run.stopped <==> StepNext(block(run.requests[|run.requests| - 1]).completion).None?)
    decreases fuel
  {
    var page := block(c);
    var next := StepNext(page.completion);
    if next.Some? && fuel > 0 {
      PaginateRequests(helper, block, next.value, fuel - 1);
      var run := Paginate(helper, block, c, fuel);
      var rest := Paginate(helper, block, next.value, fuel - 1);
      assert run.requests == [c] + rest.requests;
      forall i | 0 <= i < |run.requests| - 1
        ensures StepNext(block(run.requests[i]).completion) == Some(run.requests[i + 1])
      {
        if i > 0 {
          assert run.requests[i] == rest.requests[i - 1];
        }
      }
    }
  }

  /** One page handed to the helper is seen as its updates, when there are any,
      and, when the helper returns nil, what `StopSeen` says of the page. */
  lemma StepObserved<C, U>(helper: Helper, page: Page<U, C>)
    ensures Observed(StepEffects(helper, PageElement(page), page.completion))
         == View(if |page.updates| > 0 then [page.updates] else [],
                 if StepNext(page.completion).None? then StopSeen(helper, page.completion) else None)
  {
  }

  /** One round of the loop as a subscriber sees it: the first page's updates,
      if any, then what the rest of the run shows, or, when the helper returned
      nil, what `StopSeen` says of the first page. */
  lemma PaginateHeadObserved<C, U>(helper: Helper, block: C -> Page<U, C>, c: C, fuel: nat)
    ensures var page := block(c);
      var next := StepNext(page.completion);
      var rest := Continue(helper, block, next, fuel);
      var first := if |page.updates| > 0 then [page.updates] else [];
      && Paginate(helper, block, c, fuel).requests == [c] + rest.requests
      && NonEmptyPages(block, [c] + rest.requests) == first + NonEmptyPages(block, rest.requests)
      && Observed(Paginate(helper, block, c, fuel).log)
         == if next.None? then View(first, StopSeen(helper, page.completion))
            else View(first + Observed(rest.log).updates, Observed(rest.log).completion)
  {
    var page := block(c);
    var next := StepNext(page.completion);
    var step := StepEffects(helper, PageElement(page), page.completion);
    var rest := Continue(helper, block, next, fuel);
    assert ([c] + rest.requests)[1..] == rest.requests;
    StepObserved(helper, page);
    ObservedAppend(step, rest.log);
    if next.None? {
      assert step + rest.log == step;
    }
  }

  /** A subscriber sees the non-empty pages in request order, one update each,
      and, once the loop stops, what `StopSeen` says of the last page. */
  lemma {:induction false} PaginateObserved<C, U>(helper: Helper, block: C -> Page<U, C>, c: C, fuel: nat)
    ensures var run := Paginate(helper, block, c, fuel);
      Observed(run.log) == View(NonEmptyPages(block, run.requests),
        if run.stopped then StopSeen(helper, block(run.requests[|run.requests| - 1]).completion) else None)
    decreases fuel
  {
    var next := StepNext(block(c).completion);
    var rest := Continue(helper, block, next, fuel);
    PaginateHeadObserved(helper, block, c, fuel);
    if next.Some? && fuel > 0 {
      PaginateObserved(helper, block, next.value, fuel - 1);
    }
  }

  /** `cursor(executor:cursor:block:)`, with at most `fuel` requests after the
      first: the pagination run on a fresh producer, and, once the loop stops,
      a further `succeed()`. */
  method Cursor<C, U>(cursor: C, block: C -> Page<U, C>, fuel: nat)
    returns (producer: Producer<seq<U>, ()>, requests: seq<C>, stopped: bool)
    ensures fresh(producer)
    ensures requests == Paginate(AsWritten, block, cursor, fuel).requests
    ensures stopped == Paginate(AsWritten, block, cursor, fuel).stopped
    ensures producer.log == Paginate(AsWritten, block, cursor, fuel).log + (if stopped then [Finish(Success(()))] else [])
  {
    producer, requests, stopped := CursorLoop(cursor, block, fuel);
    if stopped {
      producer.Succeed(());
    }
  }

  /** `cursor(context:cursor:block:)`, with at most `fuel` requests after the
      first: the pagination run on a fresh producer, with no further call. */
  method CursorInContext<C, U>(cursor: C, block: C -> Page<U, C>, fuel: nat)
    returns (producer: Producer<seq<U>, ()>, requests: seq<C>, stopped: bool)
    ensures fresh(producer)
    ensures requests == Paginate(AsWritten, block, cursor, fuel).requests
    ensures stopped == Paginate(AsWritten, block, cursor, fuel).stopped
    ensures producer.log == Paginate(AsWritten, block, cursor, fuel).log
  {
    producer, requests, stopped := CursorLoop(cursor, block, fuel);
  }

  /** One more round of the loop: while the helper returned a cursor and fuel
      remains, the rest of the run is the page for that cursor, handed to the
      helper, followed by the loop from the cursor the helper returns then. */
  lemma ContinueStep<C, U>(helper: Helper, block: C -> Page<U, C>, next: Option<C>, budget: nat)
    requires next.Some? && budget > 0
    ensures var page := block(next.value);
      var rest := Continue(helper, block, StepNext(page.completion), budget - 1);
      Continue(helper, block, next, budget)
        == Run([next.value] + rest.requests, StepEffects(helper, PageElement(page), page.completion) + rest.log, rest.stopped)
  {
  }

  /** The loop both `cursor` functions run: request the first page, hand it to
      the helper, and request again with the cursor it returns until it returns nil. */
  method CursorLoop<C, U>(cursor: C, block: C -> Page<U, C>, fuel: nat)
    returns (producer: Producer<seq<U>, ()>, requests: seq<C>, stopped: bool)
    ensures fresh(producer)
    ensures requests == Paginate(AsWritten, block, cursor, fuel).requests
    ensures stopped == Paginate(AsWritten, block, cursor, fuel).stopped
    ensures producer.log == Paginate(AsWritten, block, cursor, fuel).log
  {
    ghost var run := Paginate(AsWritten, block, cursor, fuel);
    producer := new Producer<seq<U>, ()>();
    var result := block(cursor);
    requests := [cursor];
    var next := UpdateWithCursor(producer, PageElement(result), result.completion);
    var budget := fuel;
    while next.Some? && budget > 0
      invariant run.requests == requests + Continue(AsWritten, block, next, budget).requests
      invariant run.log == producer.log + Continue(AsWritten, block, next, budget).log
      invariant run.stopped == Continue(AsWritten, block, next, budget).stopped
      decreases budget
    {
      ContinueStep(AsWritten, block, next, budget);
      ghost var before := producer.log;
      ghost var requested := requests;
      result := block(next.value);
      requests := requests + [next.value];
      next := UpdateWithCursor(producer, PageElement(result), result.completion);
      budget := budget - 1;
      ghost var rest := Continue(AsWritten, block, next, budget);
      assert requests + rest.requests == requested + ([requests[|requests| - 1]] + rest.requests);
      assert producer.log + rest.log == before + (StepEffects(AsWritten, PageElement(result), result.completion) + rest.log);
    }
    stopped := next.None?;
    assert Continue(AsWritten, block, next, budget).log == [];
  }

  /** Once the loop stops, the executor variant's trailing `succeed()` is its
      only success: subscribers see the last page's failure, or success. The
      context variant, which makes no such call, is seen to complete only on a
      failed page; after `success(nil)` it never completes. */
  lemma CursorVariantsDiffer<C, U>(block: C -> Page<U, C>, c: C, fuel: nat)
    requires Paginate(AsWritten, block, c, fuel).stopped
    ensures var run := Paginate(AsWritten, block, c, fuel);
      var last := block(run.requests[|run.requests| - 1]).completion;
      && Observed(run.log + [Finish(Success(()))])
         == View(NonEmptyPages(block, run.requests), Some(if last.Failure? then Failure(last.error) else Success(())))
      && Observed(run.log)
         == View(NonEmptyPages(block, run.requests), if last.Failure? then Some(Failure(last.error)) else None)
  {
    var run := Paginate(AsWritten, block, c, fuel);
    PaginateRequests(AsWritten, block, c, fuel);
    PaginateObserved(AsWritten, block, c, fuel);
    ObservedAppend(run.log, [Finish(Success(()))]);
  }

  /** As written, a first page that returns no cursor without failing ends the
      context variant's channel without a completion; the intended helper
      completes it with success. */
  lemma ContextCursorNeverCompletes<C, U>(block: C -> Page<U, C>, c: C, fuel: nat)
    requires block(c).completion == Success(None)
    ensures Observed(Paginate(AsWritten, block, c, fuel).log).completion == None
    ensures Observed(Paginate(Intended, block, c, fuel).log).completion == Some(Success(()))
  {
    PaginateObserved(AsWritten, block, c, fuel);
    PaginateObserved(Intended, block, c, fuel);
  }

  /** With the intended helper, the loop completes the channel itself once it
      stops, with the last page's failure or success, and the executor
      variant's extra `succeed()` is not seen: both variants look the same. */
  lemma CorrectedCursorVariantsAgree<C, U>(block: C -> Page<U, C>, c: C, fuel: nat)
    requires Paginate(Intended, block, c, fuel).stopped
    ensures var run := Paginate(Intended, block, c, fuel);
      var last := block(run.requests[|run.requests| - 1]).completion;
      && Observed(run.log)
         == View(NonEmptyPages(block, run.requests), Some(if last.Failure? then Failure(last.error) else Success(())))
      && Observed(run.log + [Finish(Success(()))]) == Observed(run.log)
  {
    var run := Paginate(Intended, block, c, fuel);
    PaginateRequests(Intended, block, c, fuel);
    PaginateObserved(Intended, block, c, fuel);
    ObservedAppend(run.log, [Finish(Success(()))]);
  }
}
