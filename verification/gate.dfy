/** The forwarding gate of an abortable promise as a transition system.

    The state is the abort flag, whether the source's settlement has reached
    the wrapper's handler yet, and the gate promise. Events are the holder
    calling `abort()` and the source's fulfilment or rejection reaching the
    handler the constructor attached to it. The flag is read at that moment
    and at no other. */
module Gate {
  import opened Settlements

  datatype Event<T, E> = Abort | SourceFulfilled(value: T) | SourceRejected(reason: E)

  /** `delivered` says the source's settlement has reached the handler,
      which happens one job after the source itself settles. */
  datatype State<T, E> = State(aborted: bool, delivered: bool, gate: Settlement<T, E>)

  /** A freshly built wrapper: not aborted, nothing delivered, gate pending. */
  function Initial<T, E>(): State<T, E>
  {
    State(false, false, Pending)
  }

  /** The settlement a source event carries. */
  function Outcome<T, E>(e: Event<T, E>): (o: Settlement<T, E>)
    requires !e.Abort?
    ensures !o.Pending?
  {
    match e
    case SourceFulfilled(v) => Fulfilled(v)
    case SourceRejected(r) => Rejected(r)
  }

  /** The states a wrapper can reach: the gate stays pending until the
      source's settlement has been delivered to the handler, and a gate
      still pending after that means the settlement arrived when the flag
      was already set. */
  predicate Valid<T, E>(s: State<T, E>)
  {
    && (!s.delivered ==> s.gate.Pending?)
    && (s.delivered && s.gate.Pending? ==> s.aborted)
  }

  /** The gate's own resolving functions: the first call settles it, any
      later call is ignored. */
  function Resolve<T, E>(gate: Settlement<T, E>, outcome: Settlement<T, E>): Settlement<T, E>
  {
    if gate.Pending? then outcome else gate
  }

  /** The source's settlement reaching the handler: forwarded to the gate
      unless the flag is set. The source promise runs its handler once, so
      a second settlement changes nothing. */
  function Deliver<T, E>(s: State<T, E>, outcome: Settlement<T, E>): State<T, E>
  {
    if s.delivered then s
    else if s.aborted then s.(delivered := true)
    else s.(delivered := true, gate := Resolve(s.gate, outcome))
  }

  /** One event. */
  function Step<T, E>(s: State<T, E>, e: Event<T, E>): (s': State<T, E>)
    // the flag is set by `abort()` alone and never cleared
    ensures s'.aborted == (s.aborted || e.Abort?)
    // `abort()` touches only the flag
    ensures e.Abort? ==> s'.gate == s.gate && s'.delivered == s.delivered
    // once a settlement has been delivered, no further settlement has any effect
    ensures !e.Abort? && s.delivered ==> s' == s
    // a settlement is always marked delivered, whatever the flag
    ensures !e.Abort? ==> s'.delivered
    // the gate moves only out of Pending, only on the first settlement, only when not aborted
    ensures s'.gate != s.gate ==> s.gate.Pending? && !s.aborted && !s.delivered && !e.Abort?
    // and then it takes the source's outcome exactly
    ensures !e.Abort? && !s.delivered && !s.aborted && s.gate.Pending? ==> s'.gate == Outcome(e)
    ensures Valid(s) ==> Valid(s')
  {
    match e
    case Abort => s.(aborted := true)
    case SourceFulfilled(v) => Deliver(s, Fulfilled(v))
    case SourceRejected(r) => Deliver(s, Rejected(r))
  }

  /** A sequence of events, in order. */
  function Run<T, E>(s: State<T, E>, events: seq<Event<T, E>>): State<T, E>
    decreases |events|
  {
    if events == [] then s else Run(Step(s, events[0]), events[1..])
  }

  lemma {:induction false} RunAppend<T, E>(s: State<T, E>, a: seq<Event<T, E>>, b: seq<Event<T, E>>)
    ensures Run(s, a + b) == Run(Run(s, a), b)
    decreases |a|
  {
    if a == [] {
      assert a + b == b;
    } else {
      assert (a + b)[0] == a[0];
      assert (a + b)[1..] == a[1..] + b;
      RunAppend(Step(s, a[0]), a[1..], b);
    }
  }

  /** Every reachable state is valid. */
  lemma {:induction false} RunPreservesValid<T, E>(s: State<T, E>, events: seq<Event<T, E>>)
    requires Valid(s)
    ensures Valid(Run(s, events))
    decreases |events|
  {
    if events != [] {
      RunPreservesValid(Step(s, events[0]), events[1..]);
    }
  }

  /** A settled gate keeps its outcome whatever happens afterwards, a late
      `abort()` included. */
  lemma {:induction false} SettledGateIsFinal<T, E>(s: State<T, E>, events: seq<Event<T, E>>)
    requires !s.gate.Pending?
    ensures Run(s, events).gate == s.gate
    decreases |events|
  {
    if events != [] {
      SettledGateIsFinal(Step(s, events[0]), events[1..]);
    }
  }

  /** A gate still pending when the flag is set stays pending for ever. */
  lemma {:induction false} SilencedGateStaysPending<T, E>(s: State<T, E>, events: seq<Event<T, E>>)
    requires s.aborted && s.gate.Pending?
    ensures Run(s, events).aborted && Run(s, events).gate.Pending?
    decreases |events|
  {
    if events != [] {
      SilencedGateStaysPending(Step(s, events[0]), events[1..]);
    }
  }

  /** The gate settles at most once: whatever it has settled to after a
      prefix of the events, it still holds after any longer prefix. */
  lemma GateSettlesOnce<T, E>(s: State<T, E>, events: seq<Event<T, E>>, i: nat, j: nat)
    requires i <= j <= |events|
    requires !Run(s, events[..i]).gate.Pending?
    ensures Run(s, events[..j]).gate == Run(s, events[..i]).gate
  {
    assert events[..j] == events[..i] + events[i..j];
    RunAppend(s, events[..i], events[i..j]);
    SettledGateIsFinal(Run(s, events[..i]), events[i..j]);
  }

  /** From a state where no settlement has been delivered yet, the gate ends up
      fulfilled with `v` exactly when the flag was clear and the first event
      is the source fulfilling with `v`. */
  lemma GateFulfilledIff<T, E>(s: State<T, E>, events: seq<Event<T, E>>, v: T)
    requires !s.delivered && s.gate.Pending?
    ensures Run(s, events).gate == Fulfilled(v)
        <==> !s.aborted && events != [] && events[0] == SourceFulfilled(v)
  {
    FirstEventDecides(s, events);
  }

  /** Likewise for a rejection with reason `r`. */
  lemma GateRejectedIff<T, E>(s: State<T, E>, events: seq<Event<T, E>>, r: E)
    requires !s.delivered && s.gate.Pending?
    ensures Run(s, events).gate == Rejected(r)
        <==> !s.aborted && events != [] && events[0] == SourceRejected(r)
  {
    FirstEventDecides(s, events);
  }

  /** And the gate stays pending exactly when the flag was set before the
      settlement was delivered, or no settlement is delivered at all. */
  lemma GatePendingIff<T, E>(s: State<T, E>, events: seq<Event<T, E>>)
    requires !s.delivered && s.gate.Pending?
    ensures Run(s, events).gate.Pending? <==> s.aborted || events == [] || events[0].Abort?
  {
    FirstEventDecides(s, events);
  }

  /** The common case analysis: with only `abort()` and the source's
      settlement as events, whichever comes first decides the gate. */
  lemma FirstEventDecides<T, E>(s: State<T, E>, events: seq<Event<T, E>>)
    requires !s.delivered && s.gate.Pending?
    ensures Run(s, events).gate ==
      if s.aborted || events == [] || events[0].Abort? then Pending else Outcome(events[0])
  {
    if events != [] {
      var next := Step(s, events[0]);
      assert Run(s, events) == Run(next, events[1..]);
      if s.aborted || events[0].Abort? {
        SilencedGateStaysPending(next, events[1..]);
      } else {
        SettledGateIsFinal(next, events[1..]);
      }
    }
  }

  /** `abort()` is idempotent: a second call straight after the first
      leaves the same state, whatever comes before and after. */
  lemma AbortIdempotent<T, E>(s: State<T, E>, before: seq<Event<T, E>>, after: seq<Event<T, E>>)
    ensures Run(s, before + [Abort, Abort] + after) == Run(s, before + [Abort] + after)
  {
    var t := Run(s, before);
    assert before + [Abort, Abort] + after == before + ([Abort, Abort] + after);
    assert before + [Abort] + after == before + ([Abort] + after);
    RunAppend(s, before, [Abort, Abort] + after);
    RunAppend(s, before, [Abort] + after);
    assert Run(t, [Abort, Abort] + after) == Run(Step(Step(t, Abort), Abort), after) by {
      assert ([Abort, Abort] + after)[1..] == [Abort] + after;
      assert ([Abort] + after)[1..] == after;
    }
    assert Run(t, [Abort] + after) == Run(Step(t, Abort), after) by {
      assert ([Abort] + after)[1..] == after;
    }
  }

  /** Once the flag is set before the source settles, no observer ever
      runs: not after any number of further events. */
  lemma ObserversNeverRunAfterEarlyAbort<H, T, E>(
    s: State<T, E>, events: seq<Event<T, E>>, onFulfilled: Option<H>, onRejected: Option<H>, onFinally: Option<H>)
    requires s.aborted && s.gate.Pending?
    ensures forall k :: 0 <= k <= |events| ==>
      && ThenReaction(Run(s, events[..k]).gate, onFulfilled, onRejected) == None
      && FinallyReaction(Run(s, events[..k]).gate, onFinally) == None
  {
    forall k | 0 <= k <= |events|
      ensures ThenReaction(Run(s, events[..k]).gate, onFulfilled, onRejected) == None
      ensures FinallyReaction(Run(s, events[..k]).gate, onFinally) == None
    {
      SilencedGateStaysPending(s, events[..k]);
    }
  }
}
