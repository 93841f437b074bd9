/** The abortable promise itself: a promise wrapper whose `abort()` sets a
    flag, and whose internal gate promise takes the source's outcome only
    if that flag is still clear when the source's settlement reaches the
    handler attached to it. `then`, `catch`
    and `finally` observe the gate, never the source. */
module AbortablePromises {
  import opened Settlements
  import Gate

  /** What the constructor is given: a resolver function, run inside a new
      host promise, or an existing promise, wrapped as it is. An existing
      promise may already have settled. */
  datatype Source<T, E> = Resolver | Existing(state: Settlement<T, E>)

  /** The outcome the source is already committed to when the wrapper is
      built: a resolver's calls are events still to come, an existing
      promise has whatever state it has. */
  function Committed<T, E>(source: Source<T, E>): Settlement<T, E>
  {
    match source
    case Resolver => Pending
    case Existing(state) => state
  }

  /** A source committed to `committed` can still settle to `outcome`. */
  ghost predicate Admits<T, E>(committed: Settlement<T, E>, outcome: Settlement<T, E>)
  {
    committed.Pending? || committed == outcome
  }

  class AbortablePromise<T, E> {
    /** The private abort flag. */
    var aborted: bool
    /** The internal gate promise that `then`, `catch` and `finally` observe. */
    var gate: Settlement<T, E>
    /** Whether the source's settlement has reached the handler. */
    ghost var delivered: bool
    /** What the source was committed to at construction. */
    ghost const committed: Settlement<T, E>

    ghost function Snapshot(): Gate.State<T, E>
      reads this
    {
      Gate.State(aborted, delivered, gate)
    }

    /** The gate invariant, and: a wrapper around a promise that had
        already settled can only ever hold that promise's own outcome. */
    ghost predicate Valid()
      reads this
    {
      && Gate.Valid(Snapshot())
      && (gate.Pending? || committed.Pending? || gate == committed)
    }

    /** Attaches the forwarding handler to the source. The handler runs only
        when the source settles, after construction has returned, even for a
        source that has settled already; so the gate starts out pending. */
    constructor (source: Source<T, E>)
      ensures Snapshot() == Gate.Initial()
      ensures !aborted && gate.Pending? && !delivered && Valid()
      ensures committed == Committed(source)
    {
      aborted := false;
      gate := Pending;
      delivered := false;
      committed := Committed(source);
    }

    /** Sets the flag and returns the same object, for fluent use. */
    method Abort() returns (self: AbortablePromise<T, E>)
      requires Valid()
      modifies this`aborted
      ensures self == this
      ensures aborted && gate == old(gate) && delivered == old(delivered)
      ensures Snapshot() == Gate.Step(old(Snapshot()), Gate.Abort)
      ensures Valid()
    {
      aborted := true;
      self := this;
    }

    /** The handler for the source's fulfilment: forwards `v` to the gate
        unless the flag is set, in which case the gate stays pending. */
    method OnSourceFulfilled(v: T)
      requires Valid() && !delivered && Admits(committed, Fulfilled(v))
      modifies this`gate, this`delivered
      ensures delivered && aborted == old(aborted)
      ensures gate == if aborted then Pending else Fulfilled(v)
      ensures Snapshot() == Gate.Step(old(Snapshot()), Gate.SourceFulfilled(v))
      ensures Valid()
    {
      delivered := true;
      if aborted {
        return;
      }
      gate := Fulfilled(v);
    }

    /** The handler for the source's rejection: forwards `r` to the gate
        unless the flag is set, in which case the gate stays pending. */
    method OnSourceRejected(r: E)
      requires Valid() && !delivered && Admits(committed, Rejected(r))
      modifies this`gate, this`delivered
      ensures delivered && aborted == old(aborted)
      ensures gate == if aborted then Pending else Rejected(r)
      ensures Snapshot() == Gate.Step(old(Snapshot()), Gate.SourceRejected(r))
      ensures Valid()
    {
      delivered := true;
      if aborted {
        return;
      }
      gate := Rejected(r);
    }

    /** `then(onFulfilled, onRejected)`, delegated to the gate: a handler
        runs only once the source's settlement has been delivered with the flag clear, and then
        receives the source's own value or reason. */
    function Then<H>(onFulfilled: Option<H>, onRejected: Option<H>): (r: Option<Invocation<H, T, E>>)
      reads this
      requires Valid()
      ensures r.Some? ==> delivered && !gate.Pending?
      ensures aborted && gate.Pending? ==> r == None
      ensures r.Some? <==> (gate.Fulfilled? && onFulfilled.Some?) || (gate.Rejected? && onRejected.Some?)
      ensures r.Some? && gate.Fulfilled? ==> r.value == WithValue(onFulfilled.value, gate.value)
      ensures r.Some? && gate.Rejected? ==> r.value == WithReason(onRejected.value, gate.reason)
      // around an already-settled promise, a handler only sees that promise's outcome
      ensures r.Some? && !committed.Pending? ==> gate == committed
    {
      ThenReaction(gate, onFulfilled, onRejected)
    }

    /** `catch(onRejected)` is `then(undefined, onRejected)`: it runs only
        on a rejection, never on a fulfilment, and receives the reason. */
    function Catch<H>(onRejected: Option<H>): (r: Option<Invocation<H, T, E>>)
      reads this
      requires Valid()
      ensures r == Then(None, onRejected)
      ensures r.Some? <==> gate.Rejected? && onRejected.Some?
      ensures r.Some? ==> r.value == WithReason(onRejected.value, gate.reason)
      ensures aborted && gate.Pending? ==> r == None
      // around an already-fulfilled promise, `catch` never fires
      ensures committed.Fulfilled? ==> r == None
    {
      ThenReaction(gate, None, onRejected)
    }

    /** `finally(onFinally)`, delegated to the gate: runs, without an
        argument, on either outcome of the gate and on nothing else. */
    function Finally<H>(onFinally: Option<H>): (r: Option<Invocation<H, T, E>>)
      reads this
      requires Valid()
      ensures r.Some? <==> !gate.Pending? && onFinally.Some?
      ensures r.Some? ==> r.value == WithoutArgument(onFinally.value) && delivered
      ensures aborted && gate.Pending? ==> r == None
    {
      FinallyReaction(gate, onFinally)
    }
  }

  /** A resolver that fulfils with `v`, never aborted: the fulfilment
      handler receives `v`. */
  method FulfilWithoutAbort<T, E, H>(v: T, onFulfilled: H) returns (fired: Option<Invocation<H, T, E>>)
    ensures fired == Some(WithValue(onFulfilled, v))
  {
    var p := new AbortablePromise<T, E>(Resolver);
    p.OnSourceFulfilled(v);
    fired := p.Then(Some(onFulfilled), None);
  }

  /** An existing promise already rejected with `reason`, never aborted:
      the handler given to `catch` receives `reason` itself. */
  method RejectExistingWithoutAbort<T, E, H>(reason: E, onRejected: H) returns (fired: Option<Invocation<H, T, E>>)
    ensures fired == Some(WithReason(onRejected, reason))
  {
    var p := new AbortablePromise<T, E>(Existing(Rejected(reason)));
    p.OnSourceRejected(reason);
    fired := p.Catch(Some(onRejected));
  }

  /** `abort().then(h)` before a resolver fulfils: `h` never runs. */
  method AbortBeforeFulfil<T, E, H>(v: T, onFulfilled: H) returns (fired: Option<Invocation<H, T, E>>)
    ensures fired == None
  {
    var p := new AbortablePromise<T, E>(Resolver);
    var q := p.Abort();
    q.OnSourceFulfilled(v);
    fired := q.Then(Some(onFulfilled), None);
  }

  /** `abort()` before a resolver rejects: neither a `then` rejection
      handler, nor a `catch` handler, nor a `finally` handler runs, so the
      discarded rejection surfaces nowhere. */
  method AbortBeforeReject<T, E, H>(reason: E, onRejected: H, onFinally: H)
    returns (thenFired: Option<Invocation<H, T, E>>, catchFired: Option<Invocation<H, T, E>>,
             finallyFired: Option<Invocation<H, T, E>>)
    ensures thenFired == None && catchFired == None && finallyFired == None
  {
    var p := new AbortablePromise<T, E>(Resolver);
    var _ := p.Abort();
    p.OnSourceRejected(reason);
    thenFired := p.Then(None, Some(onRejected));
    catchFired := p.Catch(Some(onRejected));
    finallyFired := p.Finally(Some(onFinally));
  }

  /** `abort()` after the source's fulfilment has reached the handler
      changes only the flag: the gate keeps `v`, and observers still
      receive it. */
  method AbortAfterFulfil<T, E, H>(v: T, onFulfilled: H) returns (fired: Option<Invocation<H, T, E>>)
    ensures fired == Some(WithValue(onFulfilled, v))
  {
    var p := new AbortablePromise<T, E>(Resolver);
    p.OnSourceFulfilled(v);
    var _ := p.Abort();
    fired := p.Then(Some(onFulfilled), None);
  }

  /** `abort()` called after the source has already fulfilled, but before
      the fulfilment has reached the handler (an existing promise that is
      already fulfilled, aborted straight after construction): the gate is
      silenced, and the `then` handler never receives `v`. */
  method AbortAfterSourceSettledBeforeDelivery<T, E, H>(v: T, onFulfilled: H)
    returns (fired: Option<Invocation<H, T, E>>)
    ensures fired == None
  {
    var p := new AbortablePromise<T, E>(Existing(Fulfilled(v)));
    var _ := p.Abort();
    p.OnSourceFulfilled(v);
    fired := p.Then(Some(onFulfilled), None);
  }

  /** An existing promise already fulfilled with `v`: whether or not the
      wrapper is aborted, a `catch` handler never runs, and a `then`
      fulfilment handler sees nothing but `v`. */
  method FulfilledExistingNeverRejects<T, E, H>(v: T, abort: bool, h: H)
    returns (thenFired: Option<Invocation<H, T, E>>, catchFired: Option<Invocation<H, T, E>>)
    ensures catchFired == None
    ensures thenFired == None || thenFired == Some(WithValue(h, v))
  {
    var p := new AbortablePromise<T, E>(Existing(Fulfilled(v)));
    if abort {
      var _ := p.Abort();
    }
    p.OnSourceFulfilled(v);
    thenFired := p.Then(Some(h), Some(h));
    catchFired := p.Catch(Some(h));
  }
}
