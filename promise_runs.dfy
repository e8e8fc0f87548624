/**
 * Sequences of operations on one promise: whatever mix of `then`,
 * `fulfill` and `reject` calls a promise receives, its queues stay
 * parallel, it is resolved at most once, and every registration is
 * dispatched exactly once, in order, with the final outcome.
 */
module PromiseRuns {
  import opened Wrappers
  import opened Reasons
  import opened Promises

  /** One public call on a promise; `child` is the promise `then` creates. */
  datatype Op<V> =
    | ThenOp(fulfillHandler: Option<Handler>, rejectHandler: Option<Handler>, block: Option<Handler>, child: Promise<V>)
    | FulfillOp(value: V)
    | RejectOp(reason: Option<ReasonArg>, trace: Trace)

  function Step<V>(s: Snapshot<V>, op: Op<V>): (r: Snapshot<V>)
    requires Settled(s)
    ensures Settled(r)
  {
    match op
    case ThenOp(f, j, b, c) => ThenStep(s, f, j, b, c)
    case FulfillOp(v) => FulfillStep(s, v)
    case RejectOp(reason, trace) => RejectStep(s, reason, trace)
  }

  /** The promise after the calls `ops`, in order. */
  function Run<V>(s: Snapshot<V>, ops: seq<Op<V>>): (r: Snapshot<V>)
    requires Settled(s)
    ensures Settled(r)
    decreases |ops|
  {
    if ops == [] then s else Run(Step(s, ops[0]), ops[1..])
  }

  lemma StepKeepsInv<V>(s: Snapshot<V>, op: Op<V>)
    requires Inv(s)
    ensures Inv(Step(s, op))
  {
    match op
    case ThenOp(f, j, b, c) => ThenKeepsInv(s, f, j, b, c);
    case FulfillOp(v) => FulfillKeepsInv(s, v);
    case RejectOp(reason, trace) => RejectKeepsInv(s, reason, trace);
  }

  lemma {:induction false} RunKeepsInv<V>(s: Snapshot<V>, ops: seq<Op<V>>)
    requires Inv(s)
    ensures Inv(Run(s, ops))
    decreases |ops|
  {
    if ops != [] {
      StepKeepsInv(s, ops[0]);
      RunKeepsInv(Step(s, ops[0]), ops[1..]);
    }
  }

  /**
   * Once resolved, a promise keeps its state, value and reason under any
   * later calls, and its past deliveries stay as they were.
   */
  lemma {:induction false} ResolvedIsFinal<V>(s: Snapshot<V>, ops: seq<Op<V>>)
    requires Settled(s) && s.state != Pending
    ensures Run(s, ops).state == s.state
    ensures Run(s, ops).value == s.value && Run(s, ops).reason == s.reason
    ensures s.log <= Run(s, ops).log
    decreases |ops|
  {
    if ops != [] {
      var t := Step(s, ops[0]);
      assert t.state == s.state && t.value == s.value && t.reason == s.reason && s.log <= t.log;
      ResolvedIsFinal(t, ops[1..]);
    }
  }

  /**
   * A promise created by `initialize` and driven by any calls: both queues
   * have one entry per `then`, nothing is dispatched while it is pending,
   * and once resolved the i-th dispatch is the i-th registration's callback
   * of the matching kind with the stored value or reason.
   */
  lemma {:induction false} NewPromiseRun<V>(ops: seq<Op<V>>)
    ensures
      var r := Run(Initial(), ops);
      && |r.onFulfill| == |r.onReject|
      && (r.state == Pending ==> r.log == [])
      && (r.state == Fulfilled ==>
            && |r.log| == |r.onFulfill|
            && forall i :: 0 <= i < |r.log| ==> r.log[i] == Delivery(r.onFulfill[i], Fulfilment(r.value.value)))
      && (r.state == Rejected ==>
            && |r.log| == |r.onReject|
            && forall i :: 0 <= i < |r.log| ==> r.log[i] == Delivery(r.onReject[i], Rejection(r.reason.value)))
  {
    RunKeepsInv(Initial(), ops);
    DeliveredOnceInOrder(Run(Initial<V>(), ops));
  }
}
