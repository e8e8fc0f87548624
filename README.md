# promise.rb — a Dafny model of the Promise state machine

This project models the `Promise` class of `lib/promise.rb`. A promise starts
pending. It is resolved once, either fulfilled with a value or rejected with a
reason. It keeps two parallel, append-only queues of callbacks, `@on_fulfill`
and `@on_reject`. Each `then` appends one FulfillCallback/RejectCallback pair,
both bound to a fresh child promise. If the promise is already resolved, `then`
dispatches the new pair at once. `fulfill` and `reject` make the transition
only while pending. Then they drain the matching queue in FIFO order.

Layout:

- `wrappers.dfy`: `Option`, standing for "nil or an object".
- `reasons.dfy` (module `Reasons`): rejection reasons and `build_reason`.
- `promise.dfy` (module `Promises`): two layers.
  - `Snapshot`, a value holding all of a promise's fields.
  - One pure step function per operation (`ThenStep`, `FulfillStep`,
    `RejectStep`, and `Resolve` for the private `dispatch`).
  - The invariant `Inv`, which is `Settled && Paired && Logged`.
  - Lemmas stating what each operation promises.
  - The class `Promise<V>`. It has the source's fields (`state`, `value`,
    `reason`, `onFulfill`, `onReject`) and one method per source method,
    except that `defer` is folded into `DispatchNow` and `build_reason` is
    the function `Reasons.BuildReason`. The methods work step by step:
    `Dispatch` is a loop over the queue. The public methods `Then`,
    `Fulfill` and `Reject` are proved to take the object from `Snap()` to
    `ThenStep`/`FulfillStep`/`RejectStep` of the old snapshot and to keep
    `Valid()`. The private helpers (`AddCallbacks`, `Dispatch`,
    `MaybeDispatch`, `DispatchNow`) state only their own effect on the
    fields.
- `promise_runs.dfy` (module `PromiseRuns`): arbitrary sequences of
  `then`/`fulfill`/`reject` calls. It holds the properties that span several
  calls: resolution is final, the queues stay paired, and every registration
  is dispatched exactly once, in order.

Dispatching a callback means calling `FulfillCallback#dispatch` or
`RejectCallback#dispatch`. Those bodies live in `promise/callback`, which is
not part of this model. The model records each dispatch as a `Delivery`
(callback, argument) appended to the promise's `log` field. `defer` is the
identity, so a delivery happens at the moment of the call.

`reject("boom")` does not reject the promise. In `lib/promise.rb:104-108`,
`build_reason` calls `reason.backtrace` on any object that does not respond to
`new`. A String has no `backtrace`, so `reject` raises NoMethodError before the
state changes. The model represents such an
argument as `ReasonArg.PlainObject`. `BuildReason` returns `None` for it,
`RejectStep` leaves the promise unchanged, and `Promise.Reject` reports
`raised`.

## Model

| member | source | states |
|---|---|---|
| `Promises.Promise.constructor` | lib/promise.rb:13-17 | a new promise is pending, with no value, no reason, both queues empty and nothing dispatched; it satisfies the invariant |
| `Promises.Promise.IsPending` | lib/promise.rb:19-21 | pending exactly when neither a value nor a reason has been recorded |
| `Promises.Promise.IsFulfilled` | lib/promise.rb:23-25 | fulfilled exactly when a value has been recorded |
| `Promises.Promise.IsRejected` | lib/promise.rb:27-29 | rejected exactly when a reason, which carries a backtrace, has been recorded |
| `Promises.Promise.Then` | lib/promise.rb:31-37 | returns a fresh child promise that satisfies the invariant, and is pending with empty queues when the parent was pending; the new state is `ThenStep` of the old one, bound to that child; the invariant and the distinctness of children are kept |
| `Promises.Promise.Sync` | lib/promise.rb:39-46 | on a resolved promise, returns the value if fulfilled and raises the reason if rejected |
| `Promises.Promise.Fulfill` | lib/promise.rb:48-53 | the new state is `FulfillStep` of the old one; the invariant is kept |
| `Promises.Promise.Reject` | lib/promise.rb:55-61 | the new state is `RejectStep` of the old one; NoMethodError is raised exactly when the reason is not an exception; the invariant is kept |
| `Promises.Promise.AddCallbacks` | lib/promise.rb:65-70 | appends exactly one FulfillCallback and one RejectCallback, both bound to one fresh pending promise, which it returns |
| `Promises.Promise.Dispatch` | lib/promise.rb:72-84 | while pending, records the outcome, then dispatches every given callback once, in order (loop invariant: the first i are delivered); otherwise changes nothing |
| `Promises.Promise.MaybeDispatch` | lib/promise.rb:86-94 | dispatches nothing while pending, the fulfill callback with the value when fulfilled, and the reject callback with the reason when rejected |
| `Promises.Promise.DispatchNow` | lib/promise.rb:96-102 | appends exactly one delivery; it may only be called on a resolved promise, with its own outcome, on a callback of the matching kind |
| `Reasons.BuildReason` | lib/promise.rb:104-108 | a class becomes an instance of that class with the given backtrace; an existing backtrace is never overwritten; a missing one is set; every normalised reason has a backtrace; a non-exception makes it fail |
| `Reasons.WithBacktrace` | lib/promise.rb:106-107 | keeps the class; keeps an existing backtrace unchanged; otherwise attaches the given one |
| `Reasons.BuildReasonStable` | lib/promise.rb:104-108 | normalising an already-normalised reason again, from any call site, returns it unchanged |
| `Promises.Deliveries` | lib/promise.rb:75 | draining a queue dispatches each entry exactly once, in queue order, all with the same argument |
| `Promises.Resolve` | lib/promise.rb:72-84 | the result keeps value and reason mutually exclusive and consistent with the state |
| `Promises.FulfillStep` | lib/promise.rb:48-53 | fulfilling keeps value and reason mutually exclusive and consistent with the state |
| `Promises.RejectStep` | lib/promise.rb:55-61 | rejecting keeps value and reason mutually exclusive; a stored reason always carries a backtrace |
| `Promises.ThenStep` | lib/promise.rb:31-37 | registering keeps value and reason mutually exclusive and consistent with the state |
| `Promises.ThenKeepsInv` | lib/promise.rb:65-70 | after `then`, the queues are still parallel, and the log is still exactly one delivery per registration on the resolved side |
| `Promises.FulfillKeepsInv` | lib/promise.rb:48-53 | from pending: fulfilled with that value, queues untouched, every queued fulfill callback dispatched once in order, no reject callback dispatched; otherwise a no-op |
| `Promises.RejectKeepsInv` | lib/promise.rb:55-61 | from pending, with an exception reason: rejected with the normalised reason (which has a backtrace), every queued reject callback dispatched once in order, no fulfill callback dispatched; otherwise a no-op |
| `Promises.RejectWithoutReason` | lib/promise.rb:56 | rejecting with no reason stores a RuntimeError instance carrying the caller's stack |
| `Promises.ThenRegistersAndReplays` | lib/promise.rb:31-37 | `then` appends one pair bound to the child, using the block when no fulfill handler is given; it dispatches nothing while pending; once resolved, it dispatches exactly the new matching callback with the stored outcome; earlier deliveries are kept and not repeated |
| `Promises.DeliveredOnceInOrder` | lib/promise.rb:72-94 | under the invariant: nothing is dispatched while pending; once resolved, the i-th delivery is the i-th registration's callback of the matching kind, with the stored value or reason |
| `Promises.NoRepeatedDelivery` | lib/promise.rb:65-75 | when every registration has its own child promise, no callback appears twice in the log |
| `PromiseRuns.Step` | lib/promise.rb:31-61 | any public call keeps value and reason mutually exclusive |
| `PromiseRuns.Run` | lib/promise.rb:31-61 | any sequence of public calls keeps value and reason mutually exclusive |
| `PromiseRuns.StepKeepsInv` | lib/promise.rb:31-61 | every public call preserves the invariant |
| `PromiseRuns.RunKeepsInv` | lib/promise.rb:31-61 | any sequence of public calls preserves the invariant |
| `PromiseRuns.ResolvedIsFinal` | lib/promise.rb:72-76 | once resolved, the state, value and reason never change again, and past deliveries are never altered |
| `PromiseRuns.NewPromiseRun` | lib/promise.rb:13-17 | for a new promise driven by any calls: the queues have equal length; nothing is dispatched while pending; once resolved, each registration is dispatched exactly once, in order, on the matching side |

## Left out

- Promises.Promise.Sync: requires a resolved promise. The `wait` call in `sync` (`lib/promise.rb:40`) blocks until resolution and is defined outside this file, so it is not modelled.
- The debug print `ap [reason, reason.backtrace]` in `sync` (`lib/promise.rb:42`) is console output and is not modelled.
- `Promise::Progress` and `promise/version` (`lib/promise.rb:3`, `6`, `9`) are not part of this model. They take no part in resolution.
- The bodies of `FulfillCallback` and `RejectCallback` (`promise/callback`) are not part of this model. A dispatch is an opaque, logged event. The model does not cover handler invocation, passthrough or the cascade into child promises. So chaining behaviour, such as `p.then { |x| x + 1 }.then { |y| y * 2 }` fulfilling with 8 after `p.fulfill(3)`, is not stated.
- Handlers that re-enter their own promise during a drain are not modelled. In the source, a handler that calls `then` on its parent while the parent drains `@on_fulfill` gets its new fulfill callback dispatched twice: once by `maybe_dispatch` (`lib/promise.rb:35`), and again by the still-running `callbacks.each` (`lib/promise.rb:75`), because Ruby's `Array#each` also visits elements appended during the iteration. In the model, the drain walks the queue as it stood at the transition. `Promises.DeliveredOnceInOrder`, `Promises.NoRepeatedDelivery` and `PromiseRuns.NewPromiseRun` therefore hold only when no handler re-enters.
- Ruby's `caller` is replaced by the `trace` parameter of `Reject`. The `respond_to?(:new)` duck typing is replaced by the `ReasonArg` datatype: an exception class, an exception object, or another object. An exception class whose `new` needs arguments is not modelled.
- Promises.Promise.Then: promises a pending child only when the parent was pending (on a resolved parent it promises only that the child is a fresh promise satisfying the invariant). A dispatch does not touch its child in this model: `Then`, `Fulfill` and `Reject` modify only the parent, so the frames imply that a parent's dispatch leaves its child unchanged (after `c := p.Then(None, None, None); p.Fulfill(3)`, `c.state == Pending` is provable). This is false of the source, where the dispatch resolves the child (the pass-through callback fulfils `c` with 3), so a child's state after a dispatch must not be read from the model.
- Reasons.WithBacktrace: computes a copy, while `reason.set_backtrace(backtrace)` (`lib/promise.rb:106`) changes the caller's exception object in place, and `@reason` is that same object. The model does not capture that aliasing. In Ruby, `build_reason` runs before the `pending?` guard, so `reject(e)` on a resolved promise still attaches a trace to `e`. Two promises rejected with the same backtrace-less exception share one object in Ruby and carry the first caller's trace, whereas in the model each gets its own trace.
- Concurrency is not modelled. The `pending?` check followed by the transition is plain sequential code with no synchronisation.
- A handler is represented only by its identity (`Handler(id)`), and a fulfilment value by a type parameter `V`. `nil` and `false` as a reason are both the missing reason (`None`). A bare `fulfill` (default argument `nil`, `lib/promise.rb:48`) corresponds to `Fulfill` with the element of `V` that stands for nil.
