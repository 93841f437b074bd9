/** The source's settlement and its delivery to the wrapper's handler as two
    separate moments.

    A promise runs its `then` handlers in a later job, never at the moment
    it settles. So between the source settling and the handler reading the
    abort flag, the holder may still call `abort()`. `StepAsWritten` reads
    the flag when the handler runs, as the wrapper does. `StepDocumented`
    reads it when the source settles, which is what the wrapper's
    documentation promises: a source that resolves before `abort()` leaves
    the wrapper resolved. */
module Delivery {
  import opened Settlements
  import Gate

  datatype Event<T, E> = Abort | SourceFulfils(value: T) | SourceRejects(reason: E) | HandlerRuns

  /** `source` is the source promise; `forward` is the flag's verdict taken
      when the source settled (used by the documented reading only);
      `delivered` says the handler has run. */
  datatype State<T, E> = State(
    aborted: bool, source: Settlement<T, E>, forward: bool, delivered: bool, gate: Settlement<T, E>)

  function Initial<T, E>(): State<T, E>
  {
    State(false, Pending, false, false, Pending)
  }

  /** The source settles once, to a fulfilment or a rejection; later calls
      of its resolving functions are ignored. */
  function Settle<T, E>(s: State<T, E>, o: Settlement<T, E>, forward: bool): State<T, E>
  {
    if s.source.Pending? then s.(source := o, forward := forward) else s
  }

  /** The wrapper as written: the handler reads the flag when it runs. */
  function StepAsWritten<T, E>(s: State<T, E>, e: Event<T, E>): State<T, E>
  {
    match e
    case Abort => s.(aborted := true)
    case SourceFulfils(v) => Settle(s, Fulfilled(v), s.forward)
    case SourceRejects(r) => Settle(s, Rejected(r), s.forward)
    case HandlerRuns =>
      if s.source.Pending? || s.delivered then s
      else s.(delivered := true, gate := if s.aborted then s.gate else Gate.Resolve(s.gate, s.source))
  }

  /** The wrapper as documented: the flag's value when the source settles
      decides whether the handler forwards the outcome. */
  function StepDocumented<T, E>(s: State<T, E>, e: Event<T, E>): State<T, E>
  {
    match e
    case Abort => s.(aborted := true)
    case SourceFulfils(v) => Settle(s, Fulfilled(v), !s.aborted)
    case SourceRejects(r) => Settle(s, Rejected(r), !s.aborted)
    case HandlerRuns =>
      if s.source.Pending? || s.delivered then s
      else s.(delivered := true, gate := if s.forward then Gate.Resolve(s.gate, s.source) else s.gate)
  }

  function RunAsWritten<T, E>(s: State<T, E>, events: seq<Event<T, E>>): State<T, E>
    decreases |events|
  {
    if events == [] then s else RunAsWritten(StepAsWritten(s, events[0]), events[1..])
  }

  function RunDocumented<T, E>(s: State<T, E>, events: seq<Event<T, E>>): State<T, E>
    decreases |events|
  {
    if events == [] then s else RunDocumented(StepDocumented(s, events[0]), events[1..])
  }

  /** As written, a source that fulfils with `v` before `abort()` is still
      silenced when the handler runs after the abort: the gate stays
      pending instead of holding `v`. */
  lemma AsWrittenLateAbortSilences<T, E>(v: T)
    ensures RunAsWritten(Initial<T, E>(), [SourceFulfils(v), Abort, HandlerRuns]).gate == Pending
  {
    var events: seq<Event<T, E>> := [SourceFulfils(v), Abort, HandlerRuns];
    var s1 := StepAsWritten(Initial(), events[0]);
    var s2 := StepAsWritten(s1, events[1]);
    assert events[1..][1..] == [events[2]];
    assert RunAsWritten(s2, [events[2]]).gate == Pending;
  }

  /** The wrapper's state as `Gate` sees it: `Gate` tracks only whether
      the settlement has reached the handler. */
  function AsGateState<T, E>(s: State<T, E>): Gate.State<T, E>
  {
    Gate.State(s.aborted, s.delivered, s.gate)
  }

  /** The handler running, as written, is `Gate`'s settlement event for the
      source's outcome, and `abort()` is `Gate`'s abort: `Gate` and the
      class model exactly the moments at which the handler reads the flag. */
  lemma AsWrittenIsGate<T, E>(s: State<T, E>, e: Event<T, E>)
    ensures e.Abort? ==> AsGateState(StepAsWritten(s, e)) == Gate.Step(AsGateState(s), Gate.Abort)
    ensures e.HandlerRuns? && s.source.Fulfilled? ==>
      AsGateState(StepAsWritten(s, e)) == Gate.Step(AsGateState(s), Gate.SourceFulfilled(s.source.value))
    ensures e.HandlerRuns? && s.source.Rejected? ==>
      AsGateState(StepAsWritten(s, e)) == Gate.Step(AsGateState(s), Gate.SourceRejected(s.source.reason))
    ensures e.SourceFulfils? || e.SourceRejects? || (e.HandlerRuns? && s.source.Pending?) ==>
      AsGateState(StepAsWritten(s, e)) == AsGateState(s)
  {
  }

  /** Once the handler has run, the documented gate keeps what it holds. */
  lemma {:induction false} DocumentedDeliveredIsFinal<T, E>(s: State<T, E>, events: seq<Event<T, E>>)
    requires s.delivered
    ensures RunDocumented(s, events).gate == s.gate
    decreases |events|
  {
    if events != [] {
      DocumentedDeliveredIsFinal(StepDocumented(s, events[0]), events[1..]);
    }
  }

  /** As documented, a source that settled while the flag was clear is
      delivered whatever `abort()` calls follow: the gate takes the
      source's outcome as soon as the handler runs, and stays pending only
      while it has not run. */
  lemma {:induction false} DocumentedLateAbortKeepsOutcome<T, E>(s: State<T, E>, events: seq<Event<T, E>>)
    requires !s.source.Pending? && s.forward && !s.delivered && s.gate.Pending?
    ensures HandlerRuns in events ==> RunDocumented(s, events).gate == s.source
    ensures HandlerRuns !in events ==> RunDocumented(s, events).gate.Pending?
    decreases |events|
  {
    if events != [] {
      var next := StepDocumented(s, events[0]);
      assert RunDocumented(s, events) == RunDocumented(next, events[1..]);
      assert HandlerRuns in events <==> events[0] == HandlerRuns || HandlerRuns in events[1..] by {
        assert events == [events[0]] + events[1..];
      }
      if events[0] == HandlerRuns {
        DocumentedDeliveredIsFinal(next, events[1..]);
      } else {
        DocumentedLateAbortKeepsOutcome(next, events[1..]);
      }
    }
  }

  /** As documented, an `abort()` before the source settles still silences
      the gate for ever, as in the wrapper as written. */
  lemma {:induction false} DocumentedEarlyAbortSilences<T, E>(s: State<T, E>, events: seq<Event<T, E>>)
    requires s.aborted && s.gate.Pending? && (s.source.Pending? || !s.forward)
    ensures RunDocumented(s, events).gate.Pending?
    decreases |events|
  {
    if events != [] {
      DocumentedEarlyAbortSilences(StepDocumented(s, events[0]), events[1..]);
    }
  }

  /** The discrepancy's own input under the documented reading: the gate
      holds `v`. */
  lemma DocumentedLateAbort<T, E>(v: T)
    ensures RunDocumented(Initial<T, E>(), [SourceFulfils(v), Abort, HandlerRuns]).gate == Fulfilled(v)
  {
    var events: seq<Event<T, E>> := [SourceFulfils(v), Abort, HandlerRuns];
    var s1 := StepDocumented(Initial(), events[0]);
    assert events[1..][1] == HandlerRuns;
    DocumentedLateAbortKeepsOutcome(s1, events[1..]);
  }
}
