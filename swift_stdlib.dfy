/**
 The two pieces of the Swift standard library the AsyncNinja core leans on:
 `Optional` and the left fold `Sequence.reduce(_:_:)`.
 */
module SwiftStdlib {

  /** Swift's `T?`. */
  datatype Option<+T> = None | Some(value: T)

  /** `xs.reduce(a, f)`: combine the elements from the first to the last,
      starting from `a`. */
  function FoldLeft<A, E>(f: (A, E) -> A, a: A, xs: seq<E>): A
    decreases |xs|
  {
    if xs == [] then a else FoldLeft(f, f(a, xs[0]), xs[1..])
  }

  /** Folding a concatenation is folding the second part from the result of the first. */
  lemma {:induction false} FoldLeftAppend<A, E>(f: (A, E) -> A, a: A, xs: seq<E>, ys: seq<E>)
    ensures FoldLeft(f, a, xs + ys) == FoldLeft(f, FoldLeft(f, a, xs), ys)
    decreases |xs|
  {
    if xs == [] {
      assert xs + ys == ys;
    } else {
      assert (xs + ys)[1..] == xs[1..] + ys;
      FoldLeftAppend(f, f(a, xs[0]), xs[1..], ys);
    }
  }

  /** Folding one more element applies the block once more, to the last element. */
  lemma FoldLeftSnoc<A, E>(f: (A, E) -> A, a: A, xs: seq<E>, x: E)
    ensures FoldLeft(f, a, xs + [x]) == f(FoldLeft(f, a, xs), x)
  {
    FoldLeftAppend(f, a, xs, [x]);
    assert FoldLeft(f, FoldLeft(f, a, xs), [x]) == FoldLeft(f, f(FoldLeft(f, a, xs), x), []);
  }
}
