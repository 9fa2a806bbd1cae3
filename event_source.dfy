/**
 The event vocabulary shared by AsyncNinja's combinators: the events a channel
 delivers, the calls a combinator's handler makes downstream, a drained channel
 (what `waitForAll()` returns), and the downstream producer as an append-only
 log of those calls.

 The write-once rule of producers and promises (the first completion wins,
 later calls are ignored) belongs to code outside this model; here it is a
 definition, `Observed`, that reads a log the way a subscriber would see it.
 */
module EventSource {
  import opened SwiftStdlib
  import opened Fallibles

  /** `ChannelEvent<U, S>`: an update, or the completion. */
  datatype Event<+U, +S> = Update(update: U) | Completion(completion: Fallible<S>)

  /** One call made downstream: `update` (Emit); `complete`, `fail` or `succeed`
      (Finish, with the completion); or the write `context[keyPath: path] = error`
      (StoreError), kept in the same log so that its order is kept too. */
  datatype Effect<+P, +S> = Emit(value: P) | Finish(result: Fallible<S>) | StoreError(error: Error)

  /** What `waitForAll()` returns: every update in order, and the completion. */
  datatype Drained<+U, +S> = Drained(updates: seq<U>, completion: Fallible<S>)

  /** A channel as a subscriber sees it: its updates, and its completion once there is one. */
  datatype View<+P, +S> = View(updates: seq<P>, completion: Option<Fallible<S>>)

  /** The update events carrying `us`, in order. */
  function Updates<U, S>(us: seq<U>): (r: seq<Event<U, S>>)
    ensures |r| == |us|
    ensures forall i :: 0 <= i < |us| ==> r[i] == Update(us[i])
  {
    seq(|us|, i requires 0 <= i < |us| => Update(us[i]))
  }

  /** The full event trace of a drained channel: its updates, then its completion. */
  function TraceOf<U, S>(d: Drained<U, S>): (r: seq<Event<U, S>>)
    ensures |r| == |d.updates| + 1
    ensures r[|d.updates|] == Completion(d.completion)
    ensures forall i :: 0 <= i < |d.updates| ==> r[i] == Update(d.updates[i])
  {
    Updates(d.updates) + [Completion(d.completion)]
  }

  /** The `update` calls posting `ps`, in order. */
  function Emits<P, S>(ps: seq<P>): (r: seq<Effect<P, S>>)
    ensures |r| == |ps|
    ensures forall i :: 0 <= i < |ps| ==> r[i] == Emit(ps[i])
  {
    seq(|ps|, i requires 0 <= i < |ps| => Emit(ps[i]))
  }

  lemma EmitsAppend<P, S>(ps: seq<P>, qs: seq<P>)
    ensures Emits<P, S>(ps + qs) == Emits<P, S>(ps) + Emits<P, S>(qs)
  {
  }

  /** The downstream log of a handler run on each event of `trace` in turn. */
  function Derive<A, B>(h: A -> seq<B>, trace: seq<A>): seq<B>
    decreases |trace|
  {
    if trace == [] then [] else h(trace[0]) + Derive(h, trace[1..])
  }

  /** Handling a trace piece by piece gives the same log: order is kept end to end. */
  lemma {:induction false} DeriveAppend<A, B>(h: A -> seq<B>, xs: seq<A>, ys: seq<A>)
    ensures Derive(h, xs + ys) == Derive(h, xs) + Derive(h, ys)
    decreases |xs|
  {
    if xs == [] {
      assert xs + ys == ys;
    } else {
      assert (xs + ys)[1..] == xs[1..] + ys;
      DeriveAppend(h, xs[1..], ys);
    }
  }

  /** Handlers that answer every event alike give the same log. */
  lemma {:induction false} DeriveSameHandler<A, B>(h: A -> seq<B>, g: A -> seq<B>, trace: seq<A>)
    requires forall a :: h(a) == g(a)
    ensures Derive(h, trace) == Derive(g, trace)
    decreases |trace|
  {
    if trace != [] {
      DeriveSameHandler(h, g, trace[1..]);
    }
  }

  lemma DeriveSnoc<A, B>(h: A -> seq<B>, xs: seq<A>, x: A)
    ensures Derive(h, xs + [x]) == Derive(h, xs) + h(x)
  {
    DeriveAppend(h, xs, [x]);
    assert Derive(h, [x]) == h(x) + Derive(h, []);
  }

  /** A log read as a subscriber sees the channel: the updates before the first
      completion, and that completion. Later calls are not seen. */
  function Observed<P, S>(log: seq<Effect<P, S>>): (v: View<P, S>)
    decreases |log|
  {
    if log == [] then View([], None)
    else match log[0]
      case Emit(p) => var rest := Observed(log[1..]); View([p] + rest.updates, rest.completion)
      case Finish(f) => View([], Some(f))
      case StoreError(_) => Observed(log[1..])
  }

  /** A log without a completion is seen in full, and whatever follows it adds on;
      once a completion is in the log, nothing after it is seen. */
  lemma {:induction false} ObservedAppend<P, S>(a: seq<Effect<P, S>>, b: seq<Effect<P, S>>)
    ensures Observed(a).completion.Some? ==> Observed(a + b) == Observed(a)
    ensures Observed(a).completion.None? ==>
      Observed(a + b) == View(Observed(a).updates + Observed(b).updates, Observed(b).completion)
    decreases |a|
  {
    if a == [] {
      assert a + b == b;
    } else {
      assert (a + b)[1..] == a[1..] + b;
      ObservedAppend(a[1..], b);
      match a[0]
      case Emit(p) =>
        assert [p] + (Observed(a[1..]).updates + Observed(b).updates)
            == ([p] + Observed(a[1..]).updates) + Observed(b).updates;
      case Finish(_) =>
      case StoreError(_) =>
    }
  }

  /** Updates followed by a completion are seen as exactly those updates and that completion. */
  lemma {:induction false} ObservedEmitsThenFinish<P, S>(ps: seq<P>, c: Fallible<S>, rest: seq<Effect<P, S>>)
    ensures Observed(Emits<P, S>(ps)) == View(ps, None)
    ensures Observed(Emits<P, S>(ps) + [Finish(c)] + rest) == View(ps, Some(c))
    decreases |ps|
  {
    if ps != [] {
      ObservedEmitsThenFinish(ps[1..], c, rest);
      assert Emits<P, S>(ps)[1..] == Emits<P, S>(ps[1..]);
      assert (Emits<P, S>(ps) + [Finish(c)] + rest)[1..] == Emits<P, S>(ps[1..]) + [Finish(c)] + rest;
    } else {
      assert Emits<P, S>(ps) + [Finish(c)] + rest == [Finish(c)] + rest;
    }
  }

  /** The derived producer: each call a handler makes on it is appended to `log`. */
  class Producer<P, S> {
    var log: seq<Effect<P, S>>

    constructor ()
      ensures log == []
    {
      log := [];
    }

    /** `update(_:)` */
    method Update(p: P)
      modifies this
      ensures log == old(log) + [Emit(p)]
    {
      log := log + [Emit(p)];
    }

    /** `complete(_:)` */
    method Complete(c: Fallible<S>)
      modifies this
      ensures log == old(log) + [Finish(c)]
    {
      log := log + [Finish(c)];
    }

    /** `fail(_:)` */
    method Fail(e: Error)
      modifies this
      ensures log == old(log) + [Finish(Failure(e))]
    {
      Complete(Failure(e));
    }

    /** `succeed(_:)` */
    method Succeed(s: S)
      modifies this
      ensures log == old(log) + [Finish(Success(s))]
    {
      Complete(Success(s));
    }

    /** `context[keyPath: path] = error`, recorded in order with the producer's calls. */
    method StoreContextError(e: Error)
      modifies this
      ensures log == old(log) + [StoreError(e)]
    {
      log := log + [StoreError(e)];
    }

    /** Makes the calls `effects` lists, one after the other. */
    method Perform(effects: seq<Effect<P, S>>)
      modifies this
      ensures log == old(log) + effects
    {
      for i := 0 to |effects|
        invariant log == old(log) + effects[..i]
      {
        assert effects[..i + 1] == effects[..i] + [effects[i]];
        match effects[i]
        case Emit(p) => Update(p);
        case Finish(c) => Complete(c);
        case StoreError(e) => StoreContextError(e);
      }
      assert effects[..|effects|] == effects;
    }

    /** Delivers the upstream events of `trace` in order to the handler `h`,
        which answers each with the calls it makes on this producer. */
    method Pump<U, T>(h: Event<U, T> -> seq<Effect<P, S>>, trace: seq<Event<U, T>>)
      modifies this
      ensures log == old(log) + Derive(h, trace)
    {
      for i := 0 to |trace|
        invariant log == old(log) + Derive(h, trace[..i])
      {
        assert trace[..i + 1] == trace[..i] + [trace[i]];
        DeriveSnoc(h, trace[..i], trace[i]);
        Perform(h(trace[i]));
      }
      assert trace[..|trace|] == trace;
    }
  }
}
