/**
 The result algebra of AsyncNinja: `Fallible<T>`, a success value or an error,
 with its casting, state-inspection, recovery, construction, flattening and
 zipping operations (Sources/AsyncNinja/Fallible.swift).
 */
module Fallibles {
  import opened SwiftStdlib

  /** Swift's `Error` existential as the library sees it: its own
      `AsyncNinjaError.dynamicCastFailed`, or any other error a user block
      throws, told apart by a tag. */
  datatype Error = DynamicCastFailed | Thrown(tag: nat)

  /** A success value or a failure. */
  datatype Fallible<+T> = Success(value: T) | Failure(error: Error)

  /** What a call to a Swift `throws` closure did: returned a value, or threw. */
  datatype Outcome<+T> = Returned(value: T) | Threw(error: Error)

  /** What `onSuccess`/`onFailure` did: the arguments its block was called with,
      and how the call itself ended (it rethrows what the block throws). */
  datatype Handled<+A> = Handled(calls: seq<A>, result: Outcome<()>)

  /** `get()`: the success value, or the failure thrown. */
  function Get<T>(f: Fallible<T>): (r: Outcome<T>)
    ensures r.Returned? <==> f.Success?
    ensures f.Success? ==> r.value == f.value
    ensures f.Failure? ==> r.error == f.error
  {
    match f
    case Success(v) => Returned(v)
    case Failure(e) => Threw(e)
  }

  /** `dynamicCast()`: `cast` is Swift's `as? T` on the success value. */
  function DynamicCast<S, T>(f: Fallible<S>, cast: S -> Option<T>): (r: Fallible<T>)
    ensures f.Failure? ==> r == Failure(f.error)
    ensures f.Success? && cast(f.value).Some? ==> r == Success(cast(f.value).value)
    ensures f.Success? && cast(f.value).None? ==> r == Failure(DynamicCastFailed)
  {
    match f
    case Success(s) =>
      (match cast(s)
       case Some(t) => Success(t)
       case None => Failure(DynamicCastFailed))
    case Failure(e) => Failure(e)
  }

  /** A cast that always succeeds leaves the fallible as it was. */
  lemma DynamicCastToSelf<T>(f: Fallible<T>)
    ensures DynamicCast(f, (x: T) => Some(x)) == f
  {
  }

  /** Casting twice is casting once by the composed cast: a failure of the
      first cast is never turned into anything else by the second. */
  lemma DynamicCastTwice<A, B, C>(f: Fallible<A>, c1: A -> Option<B>, c2: B -> Option<C>)
    ensures DynamicCast(DynamicCast(f, c1), c2)
         == DynamicCast(f, (x: A) => if c1(x).Some? then c2(c1(x).value) else None)
  {
  }

  /** `onSuccess(_:)`: runs the block on the success value, and only then. */
  function OnSuccess<T>(f: Fallible<T>, block: T -> Outcome<()>): (r: Handled<T>)
    ensures r.calls == [] <==> f.Failure?
    ensures f.Success? ==> r.calls == [f.value] && r.result == block(f.value)
    ensures f.Failure? ==> r.result == Returned(())
  {
    match f
    case Success(s) => Handled([s], block(s))
    case Failure(_) => Handled([], Returned(()))
  }

  /** `onFailure(_:)`: runs the block on the failure value, and only then. */
  function OnFailure<T>(f: Fallible<T>, block: Error -> Outcome<()>): (r: Handled<Error>)
    ensures r.calls == [] <==> f.Success?
    ensures f.Failure? ==> r.calls == [f.error] && r.result == block(f.error)
    ensures f.Success? ==> r.result == Returned(())
  {
    match f
    case Success(_) => Handled([], Returned(()))
    case Failure(e) => Handled([e], block(e))
  }

  /** Of `onSuccess` and `onFailure`, exactly one runs its block, exactly once. */
  lemma OnSuccessOnFailureExclusive<T>(f: Fallible<T>, b1: T -> Outcome<()>, b2: Error -> Outcome<()>)
    ensures |OnSuccess(f, b1).calls| + |OnFailure(f, b2).calls| == 1
  {
  }

  /** `fallible(block:)`: a returned value becomes a success, a thrown error a failure. */
  function FallibleOf<T>(block: Outcome<T>): (r: Fallible<T>)
    ensures r.Success? <==> block.Returned?
    ensures block.Returned? ==> r.value == block.value
    ensures block.Threw? ==> r.error == block.error
  {
    match block
    case Returned(v) => Success(v)
    case Threw(e) => Failure(e)
  }

  /** `fallible { try f.get() }` gives back `f`, and `get()` of `fallible(block:)`
      replays the block: the two are inverse. */
  lemma GetFallibleRoundTrip<T>(f: Fallible<T>, block: Outcome<T>)
    ensures FallibleOf(Get(f)) == f
    ensures Get(FallibleOf(block)) == block
  {
  }

  /** `flatFallible(block:)`: the block's own fallible, or the error it threw. */
  function FlatFallible<T>(block: Outcome<Fallible<T>>): (r: Fallible<T>)
    ensures block.Returned? ==> r == block.value
    ensures block.Threw? ==> r == Failure(block.error)
  {
    match block
    case Returned(f) => f
    case Threw(e) => Failure(e)
  }

  /** `flatten()`: an outer success is replaced by the inner fallible; an outer
      failure stays that failure. */
  function Flatten<T>(f: Fallible<Fallible<T>>): (r: Fallible<T>)
    ensures f.Success? ==> r == f.value
    ensures f.Failure? ==> r == Failure(f.error)
    ensures r.Success? <==> f.Success? && f.value.Success?
  {
    match f
    case Success(inner) => inner
    case Failure(e) => Failure(e)
  }

  /** `flatFallible` is `fallible` followed by `flatten`. */
  lemma FlatFallibleIsFlattenedFallible<T>(block: Outcome<Fallible<T>>)
    ensures FlatFallible(block) == Flatten(FallibleOf(block))
  {
  }

  /** `tryRecover(_:)`: a success is kept without running the block; a failure
      becomes what the block returns, or fails with what it throws. */
  function TryRecover<T>(f: Fallible<T>, transform: Error -> Outcome<T>): (r: Fallible<T>)
    ensures f.Success? ==> r == f
    ensures f.Failure? && transform(f.error).Returned? ==> r == Success(transform(f.error).value)
    ensures f.Failure? && transform(f.error).Threw? ==> r == Failure(transform(f.error).error)
  {
    match f
    case Success(s) => Success(s)
    case Failure(e) =>
      (match transform(e)
       case Returned(s) => Success(s)
       case Threw(thrown) => Failure(thrown))
  }

  /** `recover(_:)`: the success value, or the block's value for the failure. */
  function Recover<T>(f: Fallible<T>, transform: Error -> T): (r: T)
    ensures f.Success? ==> r == f.value
    ensures f.Failure? ==> r == transform(f.error)
  {
    match f
    case Success(s) => s
    case Failure(e) => transform(e)
  }

  /** `recover(with:)`: the pattern variable shadows the parameter, so a success
      yields its own value and only a failure yields the supplied one. */
  function RecoverWith<T>(f: Fallible<T>, success: T): (r: T)
    ensures f.Success? ==> r == f.value
    ensures f.Failure? ==> r == success
  {
    match f
    case Success(success) => success
    case Failure(_) => success
  }

  /** A `tryRecover` whose block never throws always succeeds, with `recover`'s value;
      on a failure it is `fallible` applied to the block. */
  lemma TryRecoverAgreesWithRecover<T>(f: Fallible<T>, transform: Error -> T, t: Error -> Outcome<T>)
    ensures TryRecover(f, (e: Error) => Returned(transform(e))) == Success(Recover(f, transform))
    ensures f.Failure? ==> TryRecover(f, t) == FallibleOf(t(f.error))
  {
  }

  /** `recover(with: d)` is `recover` with the constant block `d`. */
  lemma RecoverWithIsConstantRecover<T>(f: Fallible<T>, d: T)
    ensures RecoverWith(f, d) == Recover(f, (_: Error) => d)
  {
  }

  /** `zip(_:_:)`: both successes, or the failure of the first failing argument. */
  function Zip<A, B>(a: Fallible<A>, b: Fallible<B>): (r: Fallible<(A, B)>)
    ensures r.Success? <==> a.Success? && b.Success?
    ensures r.Success? ==> r.value == (a.value, b.value)
    ensures a.Failure? ==> r == Failure(a.error)
    ensures a.Success? && b.Failure? ==> r == Failure(b.error)
  {
    match (a, b)
    case (Success(x), Success(y)) => Success((x, y))
    case (Failure(e), _) => Failure(e)
    case (_, Failure(e)) => Failure(e)
  }

  /** `zip(_:_:_:)`: all three successes, or the failure of the first failing argument. */
  function Zip3<A, B, C>(a: Fallible<A>, b: Fallible<B>, c: Fallible<C>): (r: Fallible<(A, B, C)>)
    ensures r.Success? <==> a.Success? && b.Success? && c.Success?
    ensures r.Success? ==> r.value == (a.value, b.value, c.value)
    ensures a.Failure? ==> r == Failure(a.error)
    ensures a.Success? && b.Failure? ==> r == Failure(b.error)
    ensures a.Success? && b.Success? && c.Failure? ==> r == Failure(c.error)
  {
    match (a, b, c)
    case (Success(x), Success(y), Success(z)) => Success((x, y, z))
    case (Failure(e), _, _) => Failure(e)
    case (_, Failure(e), _) => Failure(e)
    case (_, _, Failure(e)) => Failure(e)
  }

  /** Zipping three is zipping the first two and then the third, up to the shape of the tuple. */
  lemma Zip3IsNestedZip<A, B, C>(a: Fallible<A>, b: Fallible<B>, c: Fallible<C>)
    ensures Zip3(a, b, c)
         == (match Zip(Zip(a, b), c)
             case Success(t) => Success((t.0.0, t.0.1, t.1))
             case Failure(e) => Failure(e))
  {
  }
}
