/**
 The single-head container under AsyncNinja's subscriber registry
 (Sources/ThreadSafeContainer.swift): a block looks at the current head and
 answers keep, remove or replace. Only the sequential effect of one
 `updateHead` is modelled; the lock-free retry loop is not.
 */
module ThreadSafeContainer {
  import opened SwiftStdlib

  /** The answer of an `updateHead` block. */
  datatype HeadChange<T> = Keep | Remove | Replace(item: T)

  /** The head that results from applying `change` to `head`. */
  function Apply<T>(change: HeadChange<T>, head: Option<T>): (r: Option<T>)
    ensures change == Keep ==> r == head
    ensures change == Remove ==> r == None
    ensures change.Replace? ==> r == Some(change.item)
  {
    match change
    case Keep => head
    case Remove => None
    case Replace(t) => Some(t)
  }

  /** Applying the changes of several `updateHead` calls, in their linearised order. */
  function ApplyAll<T>(changes: seq<HeadChange<T>>, head: Option<T>): Option<T>
    decreases |changes|
  {
    if changes == [] then head else ApplyAll(changes[1..], Apply(changes[0], head))
  }

  /** The last change that is not `keep`, if any. */
  function LastEffective<T>(changes: seq<HeadChange<T>>): (r: Option<HeadChange<T>>)
    ensures r.Some? ==> r.value != Keep && r.value in changes
    ensures r.None? ==> forall i :: 0 <= i < |changes| ==> changes[i] == Keep
    ensures r.Some? ==> exists k :: 0 <= k < |changes| && changes[k] == r.value
                                    && forall j :: k < j < |changes| ==> changes[j] == Keep
    decreases |changes|
  {
    if changes == [] then None
    else if changes[|changes| - 1] != Keep then Some(changes[|changes| - 1])
    else
      var front := changes[..|changes| - 1];
      var r := LastEffective(front);
      assert forall i :: 0 <= i < |front| ==> front[i] == changes[i];
      r
  }

  /** After a run of updates the head is set by the last `remove` or `replace`
      alone, and is the initial head when every block answered `keep`. */
  lemma {:induction false} ApplyAllIsLastEffective<T>(changes: seq<HeadChange<T>>, head: Option<T>)
    ensures ApplyAll(changes, head)
         == (match LastEffective(changes)
             case None => head
             case Some(c) => Apply(c, head))
    decreases |changes|
  {
    if changes != [] {
      ApplyAllIsLastEffective(changes[1..], Apply(changes[0], head));
      LastEffectiveOfPrefixed(changes);
    }
  }

  /** The last effective change of a non-empty run is that of its tail, unless the
      tail is all `keep`, when it is the first change (if that is not `keep`). */
  lemma {:induction false} LastEffectiveOfPrefixed<T>(changes: seq<HeadChange<T>>)
    requires changes != []
    ensures LastEffective(changes)
         == (match LastEffective(changes[1..])
             case Some(c) => Some(c)
             case None => if changes[0] == Keep then None else Some(changes[0]))
    decreases |changes|
  {
    var n := |changes|;
    if n > 1 {
      var tail := changes[1..];
      assert tail[|tail| - 1] == changes[n - 1];
      if changes[n - 1] == Keep {
        var front := changes[..n - 1];
        assert front[1..] == tail[..|tail| - 1];
        assert LastEffective(changes) == LastEffective(front);
        assert LastEffective(tail) == LastEffective(front[1..]);
        LastEffectiveOfPrefixed(front);
      }
    }
  }

  /** The container: a mutable head that `updateHead` replaces in place. */
  class Container<T> {
    var head: Option<T>

    constructor ()
      ensures head == None
    {
      head := None;
    }

    /** `updateHead(_:)`: passes the current head to the block and applies its
        answer; returns the head before and after. */
    method UpdateHead(block: Option<T> -> HeadChange<T>) returns (oldHead: Option<T>, newHead: Option<T>)
      modifies this
      ensures oldHead == old(head)
      ensures newHead == head
      ensures head == Apply(block(old(head)), old(head))
      ensures block(old(head)) == Keep ==> newHead == oldHead
    {
      oldHead := head;
      head := Apply(block(head), head);
      newHead := head;
    }
  }
}
