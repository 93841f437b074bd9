# AbortablePromise, modelled in Dafny

`AbortablePromise` wraps a source promise. The source is either a resolver
function run inside a new promise, or an existing promise. The wrapper adds
one operation, `abort()`. The constructor attaches one handler to the source.
When the source's settlement reaches that handler, the handler forwards
the fulfilment value or the rejection reason to an internal gate promise,
but only if the private abort flag is still clear at that moment. `then`,
`catch` and `finally` observe only the gate. So an `abort()` that comes
before the source's settlement reaches the handler silences every observer
for ever. An `abort()` that comes after that changes nothing anyone can
observe. The handler runs one job after the source settles, so an
`abort()` in between still silences the gate (see "## Findings").

The model has four modules:

- `Settlements` (settlements.dfy): the state of a promise (`Pending`,
  `Fulfilled(v)`, `Rejected(r)`). It also gives which handler a host
  promise runs for `then(onFulfilled, onRejected)` and for `finally(onFinally)`,
  and with which argument. An absent handler is `None`.
- `Gate` (gate.dfy): the wrapper as a transition system. Its state is the
  flag, whether the source's settlement has reached the handler, and the
  gate. Its events are `Abort`, `SourceFulfilled(v)` and `SourceRejected(r)`.
  `Step` applies one event and `Run` applies a sequence of them. The lemmas
  about `Run` state what holds for every order of `abort()` and settlement.
- `AbortablePromises` (abortable_promise.dfy): the class itself. It has the
  fields `aborted` and `gate`, and the ghost fields `delivered` and
  `committed`. It has the constructor, `Abort`, the two source handlers
  `OnSourceFulfilled` and `OnSourceRejected`, and `Then`, `Catch` and
  `Finally`. Every state-changing method is proved to perform exactly
  `Gate.Step` on the object's state. The constructor's input is the
  datatype `Source = Resolver | Existing(state)` instead of the
  `'then' in resolver` shape check. The file ends with seven scenario
  methods. Four replay the four tests in src/AbortablePromies.test.ts;
  `AbortBeforeReject` also attaches `then`, `catch` and `finally`
  handlers, which that test does not, to show that none of them runs.
  `AbortAfterFulfil` replays the doc comment at src/AbortablePromise.ts:10-11
  for a settlement that has already reached the handler.
  `AbortAfterSourceSettledBeforeDelivery` shows the case where that doc
  comment does not hold. `FulfilledExistingNeverRejects` shows what the
  class invariant gives a client holding a wrapper of a fulfilled promise.
- `Delivery` (delivery.dfy): the source settling and the handler running as
  two separate events. `StepAsWritten` reads the flag when the handler
  runs, as the code does, and `AsWrittenIsGate` shows that `Gate` models
  exactly these handler runs. `StepDocumented` reads the flag when the
  source settles, as the doc comment promises.

Modelling decisions:

- The abort flag is read when the handler attached to the source runs.
  Under the host's promise rules, that is one job after the source settles,
  not at the instant of settlement. The events of `Gate` stand for the
  handler running.
- Even a native source that has already settled (`Promise.reject(...)`, or
  a resolver that calls `resolve` synchronously) reaches the handler only
  after the constructor has returned. So a new wrapper's gate is always
  pending, and an `abort()` issued straight after construction still
  silences it.
- The source runs its handler at most once, and the gate's resolving
  functions ignore every call after the first. These are the host's
  settle-once rules (ECMA-262, section 27.2.1.3, CreateResolvingFunctions,
  "alreadyResolved"). The class methods state them as the precondition
  `!delivered`. The total `Gate.Step` states them as "a second
  settlement changes nothing".
- `committed` records the outcome an existing promise already has at
  construction. The source handlers may deliver only that outcome, and the
  class invariant `Valid()` says that the gate then holds either nothing or
  that outcome. A resolver, or an existing promise that is still pending,
  may deliver any outcome.

## Model

| member | source | states |
|---|---|---|
| AbortablePromises.AbortablePromise.constructor | src/AbortablePromise.ts:27-41 | a new wrapper is not aborted, its source has not reached the handler, and its gate is pending, whatever the source (a native promise or a resolver); it records in `committed` the state of an existing promise, and nothing for a resolver |
| AbortablePromises.AbortablePromise.Abort | src/AbortablePromise.ts:69-72 | sets the flag, returns the same object, and leaves the gate and the source's progress unchanged |
| AbortablePromises.AbortablePromise.OnSourceFulfilled | src/AbortablePromise.ts:33-35 | the source's fulfilment with v makes the gate Fulfilled(v) if the flag is clear, and leaves it pending if the flag is set |
| AbortablePromises.AbortablePromise.OnSourceRejected | src/AbortablePromise.ts:36-38 | the source's rejection with r makes the gate Rejected(r) if the flag is clear, and leaves it pending if the flag is set |
| AbortablePromises.AbortablePromise.Then | src/AbortablePromise.ts:46-48 | a handler runs only after the source's settlement has been delivered with the flag clear; the fulfilment handler gets the source's value, the rejection handler its reason; nothing runs on a pending or silenced gate; around an already-settled promise, a handler only ever sees that promise's own outcome |
| AbortablePromises.AbortablePromise.Catch | src/AbortablePromise.ts:54-56 | equals then(undefined, h): h runs exactly when the gate is rejected, never on a fulfilment, receives the reason, and never runs once silenced or around an already-fulfilled promise |
| AbortablePromises.AbortablePromise.Finally | src/AbortablePromise.ts:62-64 | the handler runs, without an argument, exactly when the gate has settled either way, and never once silenced |
| Gate.Step | src/AbortablePromise.ts:31-40 | only abort sets the flag and it is never cleared; abort touches nothing else; the gate leaves Pending only on the first settlement with the flag clear, and then takes the source's outcome exactly; a second settlement changes nothing; validity is preserved |
| Gate.RunPreservesValid | src/AbortablePromise.ts:31-40 | in every reachable state the gate is pending until the source's settlement has been delivered, and a gate pending after delivery implies the flag was set |
| Gate.SettledGateIsFinal | src/AbortablePromise.ts:31-40 | once the gate has settled (the settlement reached the handler with the flag clear), no later events, late aborts included, change its outcome |
| Gate.SilencedGateStaysPending | src/AbortablePromise.ts:6-8 | a gate still pending when the flag is set stays pending, and the flag stays set, after any events |
| Gate.GateSettlesOnce | src/AbortablePromise.ts:31-40 | the outcome the gate has after any prefix of the events is the outcome it has after every longer prefix |
| Gate.GateFulfilledIff | src/AbortablePromise.ts:33-35 | from a state where no settlement has been delivered yet, the gate ends Fulfilled(v) if and only if the flag was clear and the first event is the source fulfilling with v |
| Gate.GateRejectedIff | src/AbortablePromise.ts:36-38 | from a state where no settlement has been delivered yet, the gate ends Rejected(r) if and only if the flag was clear and the first event is the source rejecting with r |
| Gate.GatePendingIff | src/AbortablePromise.ts:33-39 | from a state where no settlement has been delivered yet, the gate stays pending if and only if the flag was set already, or abort comes first, or nothing happens |
| Gate.FirstEventDecides | src/AbortablePromise.ts:31-40 | from a state where no settlement has been delivered yet, whichever of abort and settlement comes first decides the gate for good |
| Gate.AbortIdempotent | src/AbortablePromise.ts:69-72 | calling abort twice in a row leaves the same state as calling it once, whatever events come before and after |
| Gate.ObserversNeverRunAfterEarlyAbort | src/AbortablePromise.ts:50-64 | once aborted while the gate is still pending, no then, catch or finally handler runs after any number of further events |
| AbortablePromises.FulfilWithoutAbort | src/AbortablePromies.test.ts:4-12 | a resolver fulfilling with v, never aborted: the then handler receives v |
| AbortablePromises.RejectExistingWithoutAbort | src/AbortablePromies.test.ts:13-21 | an existing promise rejected with r, never aborted: the catch handler receives r itself |
| AbortablePromises.AbortBeforeFulfil | src/AbortablePromies.test.ts:22-31 | abort().then(h) before the resolver fulfils: h does not run |
| AbortablePromises.AbortBeforeReject | src/AbortablePromies.test.ts:32-41 | abort before the resolver rejects: no then rejection handler, catch handler or finally handler runs |
| AbortablePromises.AbortAfterFulfil | src/AbortablePromise.ts:10-11 | abort after the source's fulfilment with v has reached the handler: the then handler still receives v |
| AbortablePromises.AbortAfterSourceSettledBeforeDelivery | src/AbortablePromise.ts:33-35 | an existing promise already fulfilled with v, aborted straight after construction: the then handler never runs, although the source settled before abort |
| AbortablePromises.FulfilledExistingNeverRejects | src/AbortablePromise.ts:54-56 | around an existing promise already fulfilled with v, aborted or not, catch never fires and then's handler sees only v |
| Delivery.AsWrittenIsGate | src/AbortablePromise.ts:33-39 | with settlement and handler run as separate events, abort is Gate's abort, the handler running is Gate's settlement event for the source's outcome, and the source settling alone changes nothing Gate sees |
| Delivery.AsWrittenLateAbortSilences | src/AbortablePromise.ts:33-34 | as written, source fulfils with v, then abort, then the handler runs: the gate stays pending |
| Delivery.DocumentedLateAbortKeepsOutcome | src/AbortablePromise.ts:10-11 | as documented, a source settled while the flag was clear reaches the gate as soon as the handler runs, whatever aborts follow, and the gate is pending only until then |
| Delivery.DocumentedEarlyAbortSilences | src/AbortablePromise.ts:6-8 | as documented, an abort before the source settles still keeps the gate pending for ever |
| Delivery.DocumentedLateAbort | src/AbortablePromise.ts:10-11 | as documented, source fulfils with v, then abort, then the handler runs: the gate holds v |

## Left out

- Hand-written thenables are not modelled; `Source.Existing` stands for a
  native promise. The `'then' in resolver` test at src/AbortablePromise.ts:29
  also accepts any object with a `then` method. If its `then` calls the
  handler synchronously, the handler runs during construction while the flag
  is still clear, so the gate settles before the constructor returns and no
  later `abort()` can silence it.
- Construction misuse is not modelled. An argument that is neither a
  promise nor a function makes the constructor throw at once: `'then' in`
  throws a TypeError on a primitive (src/AbortablePromise.ts:29), and
  `new Promise` throws on a non-callable. `Source` has only the two valid
  forms, so that error path cannot be expressed.
- The host promise machinery is not modelled. This covers job scheduling, the
  promise that `then`, `catch` and `finally` return, handler return values
  and thrown errors, and thenable adoption. The model states only which
  handler runs on the gate, and with what argument.
- Timing (`setTimeout` delays in the test file) becomes the order of `Abort`
  and settlement events.
- The `'then' in resolver` runtime check at src/AbortablePromise.ts:29 is replaced
  by the `Source` datatype.
- The resolver's own code is not modelled. Its calls to `resolve` and
  `reject` become the source settlement events. A resolver that throws is
  turned into a rejection by the host promise; the model covers that only
  as a rejection event.
- The `Symbol.toStringTag` field at src/AbortablePromise.ts:16 has no behaviour
  and is not modelled.
- TypeScript type parameters (`TResult1`, `TResult2`) are typing only and are
  not modelled. Values and reasons are the type parameters `T` and `E`.
- Unhandled-rejection diagnostics and garbage collection of gates that stay
  pending for ever are runtime concerns and are not modelled. The model
  shows only that no observer of the gate sees a discarded rejection.

## Findings

| source | as written | input that shows it | evidently intended | confidence | as-written member | corrected member |
|---|---|---|---|---|---|---|
| src/AbortablePromise.ts:10-11 | the flag is read inside a `then` handler on the source (lines 33-38), and that handler runs one job after the source settles, so an `abort()` in between silences a source that has already resolved | `new AbortablePromise(r => r(42)).abort()`, or `new AbortablePromise(Promise.resolve(42)).abort()`: `then` handlers never run | the doc comment: a source that resolves before `.abort()` leaves the wrapper resolved | not executed; high that the code behaves so, medium that the doc comment states the intent | AbortablePromises.AbortAfterSourceSettledBeforeDelivery | Delivery.DocumentedLateAbortKeepsOutcome |

The as-written behaviour is also shown on the two-event model by
`Delivery.AsWrittenLateAbortSilences`. The documented reading is defined by
`Delivery.StepDocumented`. `Delivery.DocumentedLateAbort` proves the
documented result for the same input, and `Delivery.DocumentedEarlyAbortSilences`
proves that an early abort still silences the gate. `Gate` and the class keep
the code's behaviour, since that is what callers of the wrapper get. The
documented behaviour can be achieved only for a resolver source, by
wrapping `resolve` and `reject`. A host promise does not expose its state
synchronously, so for an existing promise the wrapper cannot tell whether it
has already settled.
