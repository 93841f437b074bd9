/** The states a promise can be in, and which handler a host promise runs
    for each of them. Both the abortable promise's internal gate and the
    source it observes are promises in this sense. */
module Settlements {

  datatype Option<T> = None | Some(value: T)

  /** A promise is pending, or has settled once and for all to a
      fulfilment value or a rejection reason. */
  datatype Settlement<T, E> = Pending | Fulfilled(value: T) | Rejected(reason: E)

  /** A handler that runs: the handler itself and the argument it receives.
      A `finally` handler receives no argument. */
  datatype Invocation<H, T, E> =
    | WithValue(handler: H, value: T)
    | WithReason(handler: H, reason: E)
    | WithoutArgument(handler: H)

  /** The handler a host promise runs for `then(onFulfilled, onRejected)`.
      An absent handler (`undefined`) lets the outcome pass on to the
      promise `then` returns without running anything; a pending promise
      runs nothing yet. */
  function ThenReaction<H, T, E>(p: Settlement<T, E>, onFulfilled: Option<H>, onRejected: Option<H>)
    : Option<Invocation<H, T, E>>
  {
    match p
    case Pending => None
    case Fulfilled(v) => if onFulfilled.Some? then Some(WithValue(onFulfilled.value, v)) else None
    case Rejected(e) => if onRejected.Some? then Some(WithReason(onRejected.value, e)) else None
  }

  /** The handler a host promise runs for `finally(onFinally)`: it runs on
      either outcome, without an argument. */
  function FinallyReaction<H, T, E>(p: Settlement<T, E>, onFinally: Option<H>): Option<Invocation<H, T, E>>
  {
    if p.Pending? || onFinally.None? then None else Some(WithoutArgument(onFinally.value))
  }
}
