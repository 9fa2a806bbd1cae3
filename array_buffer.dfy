/**
 `ArrayWrapper`, the mutable buffer AsyncNinja's array reducers accumulate
 into, and the `aggregateFuture` of Sources/AsyncNinja/Array.swift. The class
 is declared identically in Sources/AsyncNinja/Array+Future.swift; it is
 modelled once, here.
 */
module ArrayBuffer {
  import opened Fallibles
  import opened EventSource

  /** A reference to an array that `+=` grows in place. */
  class ArrayWrapper<T> {
    var contents: seq<T>  // the field `array`

    /** `init(_ reserve:)`: the reserve is a capacity hint only. */
    constructor (reserve: int)
      ensures contents == []
    {
      contents := [];
    }

    /** `+=` with an element: appends it and returns this same wrapper. */
    method AppendElement(right: T) returns (self: ArrayWrapper<T>)
      modifies this
      ensures self == this
      ensures contents == old(contents) + [right]
    {
      contents := contents + [right];
      self := this;
    }

    /** `+=` with an array: appends its elements in order and returns this same wrapper. */
    method AppendContents(right: seq<T>) returns (self: ArrayWrapper<T>)
      modifies this
      ensures self == this
      ensures contents == old(contents) + right
    {
      contents := contents + right;
      self := this;
    }
  }

  /** `aggregateFuture()`: the futures' resolved values arrive on a channel (made
      by `flatMapFuture`, which is not part of this model, so its drained result
      is the input here), are reduced with `+=` into one wrapper, and the future
      resolves to that wrapper's array. */
  method AggregateFuture<T, S>(drained: Drained<T, S>, count: int) returns (r: Fallible<seq<T>>)
    ensures drained.completion.Success? ==> r == Success(drained.updates)
    ensures drained.completion.Failure? ==> r == Failure(drained.completion.error)
  {
    var wrapper := new ArrayWrapper<T>(count);
    match drained.completion {
      case Success(_) =>
        var accum := wrapper;
        var updates := drained.updates;
        for i := 0 to |updates|
          invariant accum == wrapper
          invariant wrapper.contents == updates[..i]
        {
          assert updates[..i + 1] == updates[..i] + [updates[i]];
          accum := accum.AppendElement(updates[i]);
        }
        assert updates[..|updates|] == updates;
        r := Success(accum.contents);
      case Failure(e) =>
        r := Failure(e);
    }
  }
}
