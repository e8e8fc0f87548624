/**
 * The Promise class of lib/promise.rb: a one-shot state machine (pending,
 * then fulfilled or rejected) with two parallel callback queues.
 *
 * The bodies of FulfillCallback and RejectCallback are not part of this
 * model: dispatching a callback is recorded as a Delivery appended to the
 * promise's `log`, so every ordering and exactly-once property is stated
 * over that log. `defer` is the identity, so a dispatch happens at once.
 *
 * The pure functions over Snapshot say what each operation does to the
 * promise's state. The public methods of class Promise (Then, Fulfill,
 * Reject) do it step by step and are proved to agree with them; the private
 * helpers state only their own effect on the fields. The lemmas state what
 * the source promises.
 */
module Promises {
  import opened Wrappers
  import opened Reasons

  datatype State = Pending | Fulfilled | Rejected

  /** The identity of a user-supplied Proc; what it computes is not modelled. */
  datatype Handler = Handler(id: nat)

  /** FulfillCallback or RejectCallback. */
  datatype Kind = OnFulfill | OnReject

  /**
   * A callback: its kind, its optional handler and the child promise it
   * resolves. The child shares the parent's value type only because the
   * child's contents are not modelled; in Ruby a handler may map the value
   * to any object.
   */
  datatype Callback<V> = Callback(kind: Kind, handler: Option<Handler>, child: Promise<V>)

  /** What a callback is dispatched with: the value or the reason. */
  datatype Arg<V> = Fulfilment(value: V) | Rejection(reason: Exception)

  /** One `callback.dispatch(arg)` event. */
  datatype Delivery<V> = Delivery(callback: Callback<V>, arg: Arg<V>)

  /** What `sync` does on a resolved promise: return the value or raise the reason. */
  datatype SyncResult<V> = Returned(value: V) | Raised(exception: Exception)

  /**
   * The fields of a promise. `value` and `reason` are None while never
   * assigned (Ruby's unset instance variable reads as nil).
   */
  datatype Snapshot<V> = Snapshot(
    state: State,
    value: Option<V>,
    reason: Option<Exception>,
    onFulfill: seq<Callback<V>>,
    onReject: seq<Callback<V>>,
    log: seq<Delivery<V>>)

  function Initial<V>(): (s: Snapshot<V>)
  {
    Snapshot(Pending, None, None, [], [], [])
  }

  /** Value and reason are mutually exclusive and match the state; a stored reason has a backtrace. */
  predicate Settled<V>(s: Snapshot<V>)
  {
    match s.state
    case Pending => s.value.None? && s.reason.None?
    case Fulfilled => s.value.Some? && s.reason.None?
    case Rejected => s.value.None? && s.reason.Some? && s.reason.value.backtrace.Some?
  }

  /** The two queues are parallel: entry i of each was appended by the same `then`. */
  predicate Paired<V>(s: Snapshot<V>)
  {
    && |s.onFulfill| == |s.onReject|
    && (forall i :: 0 <= i < |s.onFulfill| ==>
          s.onFulfill[i].kind == OnFulfill && s.onReject[i].kind == OnReject &&
          s.onFulfill[i].child == s.onReject[i].child)
  }

  /** The dispatches of `callbacks.each { |callback| dispatch!(callback, arg) }`. */
  function Deliveries<V>(callbacks: seq<Callback<V>>, arg: Arg<V>): (r: seq<Delivery<V>>)
    ensures |r| == |callbacks|
    ensures forall i :: 0 <= i < |r| ==> r[i] == Delivery(callbacks[i], arg)
  {
    if callbacks == [] then []
    else Deliveries(callbacks[..|callbacks| - 1], arg) + [Delivery(callbacks[|callbacks| - 1], arg)]
  }

  /**
   * Every registration has been dispatched exactly once, in queue order, on
   * the side that matches the outcome, and nothing at all while pending.
   */
  ghost predicate Logged<V>(s: Snapshot<V>)
    requires Settled(s)
  {
    match s.state
    case Pending => s.log == []
    case Fulfilled => s.log == Deliveries(s.onFulfill, Fulfilment(s.value.value))
    case Rejected => s.log == Deliveries(s.onReject, Rejection(s.reason.value))
  }

  ghost predicate Inv<V>(s: Snapshot<V>)
  {
    Settled(s) && Paired(s) && Logged(s)
  }

  /** No two registrations share a child promise. */
  ghost predicate DistinctChildren<V>(callbacks: seq<Callback<V>>)
  {
    forall i, j :: 0 <= i < j < |callbacks| ==> callbacks[i].child != callbacks[j].child
  }

  function KindOf<V>(arg: Arg<V>): (k: Kind)
  {
    if arg.Fulfilment? then OnFulfill else OnReject
  }

  /** The argument a resolved promise dispatches its callbacks with. */
  function Outcome<V>(s: Snapshot<V>): (arg: Arg<V>)
    requires Settled(s) && s.state != Pending
  {
    if s.state == Fulfilled then Fulfilment(s.value.value) else Rejection(s.reason.value)
  }

  /**
   * `dispatch(callbacks, arg) { ... }`, with the block that `fulfill` or
   * `reject` passes folded in: when pending, record the outcome, then
   * dispatch every callback with `arg`; otherwise change nothing.
   */
  function Resolve<V>(s: Snapshot<V>, callbacks: seq<Callback<V>>, arg: Arg<V>): (r: Snapshot<V>)
    requires Settled(s)
    requires arg.Rejection? ==> arg.reason.backtrace.Some?
    ensures Settled(r)
  {
    if s.state != Pending then s
    else
      var t := match arg
        case Fulfilment(v) => s.(state := Fulfilled, value := Some(v))
        case Rejection(e) => s.(state := Rejected, reason := Some(e));
      t.(log := t.log + Deliveries(callbacks, arg))
  }

  /** `fulfill(value)`. */
  function FulfillStep<V>(s: Snapshot<V>, v: V): (r: Snapshot<V>)
    requires Settled(s)
    ensures Settled(r)
  {
    Resolve(s, s.onFulfill, Fulfilment(v))
  }

  /** The argument build_reason receives: `reason || RuntimeError`. */
  function ReasonOrDefault(reason: Option<ReasonArg>): (r: ReasonArg)
  {
    if reason.Some? then reason.value else ExceptionClass(RuntimeError)
  }

  /** `reject(reason)`; a reason build_reason cannot normalise raises and leaves the promise as it was. */
  function RejectStep<V>(s: Snapshot<V>, reason: Option<ReasonArg>, trace: Trace): (r: Snapshot<V>)
    requires Settled(s)
    ensures Settled(r)
  {
    match BuildReason(ReasonOrDefault(reason), trace)
    case None => s
    case Some(e) => Resolve(s, s.onReject, Rejection(e))
  }

  /** `maybe_dispatch(fulfill_callback, reject_callback)`. */
  function Replay<V>(s: Snapshot<V>, fulfillCallback: Callback<V>, rejectCallback: Callback<V>): (r: seq<Delivery<V>>)
    requires Settled(s)
  {
    match s.state
    case Pending => []
    case Fulfilled => [Delivery(fulfillCallback, Fulfilment(s.value.value))]
    case Rejected => [Delivery(rejectCallback, Rejection(s.reason.value))]
  }

  /**
   * `then(on_fulfill, on_reject, &block)`: append one callback pair bound to
   * `child`, the block standing in for a missing fulfill handler, then
   * replay the outcome to the new pair if already resolved.
   */
  function ThenStep<V>(s: Snapshot<V>, fulfillHandler: Option<Handler>, rejectHandler: Option<Handler>,
                       block: Option<Handler>, child: Promise<V>): (r: Snapshot<V>)
    requires Settled(s)
    ensures Settled(r)
  {
    var f := Callback(OnFulfill, if fulfillHandler.Some? then fulfillHandler else block, child);
    var j := Callback(OnReject, rejectHandler, child);
    var t := s.(onFulfill := s.onFulfill + [f], onReject := s.onReject + [j]);
    t.(log := t.log + Replay(t, f, j))
  }

  // ---------------------------------------------------------------------
  // Properties of the operations

  lemma ThenKeepsInv<V>(s: Snapshot<V>, fulfillHandler: Option<Handler>, rejectHandler: Option<Handler>,
                        block: Option<Handler>, child: Promise<V>)
    requires Inv(s)
    ensures Inv(ThenStep(s, fulfillHandler, rejectHandler, block, child))
  {
  }

  /**
   * Fulfilling a pending promise records the value first and then
   * dispatches every queued fulfill callback once, in order, and no reject
   * callback; on a resolved promise it changes nothing.
   */
  lemma FulfillKeepsInv<V>(s: Snapshot<V>, v: V)
    requires Inv(s)
    ensures Inv(FulfillStep(s, v))
    ensures s.state == Pending ==>
      var r := FulfillStep(s, v);
      && r.state == Fulfilled && r.value == Some(v) && r.reason.None?
      && r.onFulfill == s.onFulfill && r.onReject == s.onReject
      && r.log == Deliveries(s.onFulfill, Fulfilment(v))
      && (forall d <- r.log :: d.callback.kind == OnFulfill)
    ensures s.state != Pending ==> FulfillStep(s, v) == s
  {
    if s.state == Pending {
      var r := FulfillStep(s, v);
      forall d <- r.log ensures d.callback.kind == OnFulfill {
        var i :| 0 <= i < |r.log| && r.log[i] == d;
      }
    }
  }

  /**
   * Rejecting a pending promise with a reason that can be normalised
   * records the normalised reason and dispatches every queued reject
   * callback once, in order, and no fulfill callback. A resolved promise,
   * or a reason that is not an exception, leaves everything unchanged.
   */
  lemma RejectKeepsInv<V>(s: Snapshot<V>, reason: Option<ReasonArg>, trace: Trace)
    requires Inv(s)
    ensures Inv(RejectStep(s, reason, trace))
    ensures s.state == Pending && BuildReason(ReasonOrDefault(reason), trace).Some? ==>
      var r := RejectStep(s, reason, trace);
      var e := BuildReason(ReasonOrDefault(reason), trace).value;
      && r.state == Rejected && r.reason == Some(e) && r.value.None?
      && e.backtrace.Some?
      && r.onFulfill == s.onFulfill && r.onReject == s.onReject
      && r.log == Deliveries(s.onReject, Rejection(e))
      && (forall d <- r.log :: d.callback.kind == OnReject)
    ensures s.state != Pending || BuildReason(ReasonOrDefault(reason), trace).None? ==>
      RejectStep(s, reason, trace) == s
  {
    var n := BuildReason(ReasonOrDefault(reason), trace);
    if s.state == Pending && n.Some? {
      var r := RejectStep(s, reason, trace);
      forall d <- r.log ensures d.callback.kind == OnReject {
        var i :| 0 <= i < |r.log| && r.log[i] == d;
      }
    }
  }

  /** Rejecting with no reason stores a RuntimeError instance carrying the caller's stack. */
  lemma RejectWithoutReason<V>(s: Snapshot<V>, trace: Trace)
    requires Inv(s) && s.state == Pending
    ensures RejectStep(s, None, trace).reason == Some(Exception(RuntimeError, Some(trace)))
  {
  }

  /**
   * `then` always appends exactly one pair bound to the new child; it
   * dispatches nothing while pending and, once resolved, exactly the new
   * callback of the matching kind with the stored outcome. Earlier
   * deliveries are kept as they were and never repeated.
   */
  lemma ThenRegistersAndReplays<V>(s: Snapshot<V>, fulfillHandler: Option<Handler>,
                                   rejectHandler: Option<Handler>, block: Option<Handler>, child: Promise<V>)
    requires Inv(s)
    ensures
      var r := ThenStep(s, fulfillHandler, rejectHandler, block, child);
      var f := Callback(OnFulfill, if fulfillHandler.Some? then fulfillHandler else block, child);
      var j := Callback(OnReject, rejectHandler, child);
      && r.onFulfill == s.onFulfill + [f] && r.onReject == s.onReject + [j]
      && r.state == s.state && r.value == s.value && r.reason == s.reason
      && (s.state == Pending ==> r.log == s.log)
      && (s.state == Fulfilled ==> r.log == s.log + [Delivery(f, Fulfilment(s.value.value))])
      && (s.state == Rejected ==> r.log == s.log + [Delivery(j, Rejection(s.reason.value))])
  {
  }

  /**
   * What the invariant means for the log: nothing is dispatched while
   * pending; once resolved, the i-th dispatch is the i-th registration's
   * callback of the matching kind, with the stored value or reason.
   */
  lemma DeliveredOnceInOrder<V>(s: Snapshot<V>)
    requires Inv(s)
    ensures s.state == Pending ==> s.log == []
    ensures s.state != Pending ==> |s.log| == |s.onFulfill| == |s.onReject|
    ensures s.state == Fulfilled ==>
      forall i :: 0 <= i < |s.log| ==> s.log[i] == Delivery(s.onFulfill[i], Fulfilment(s.value.value))
    ensures s.state == Rejected ==>
      forall i :: 0 <= i < |s.log| ==> s.log[i] == Delivery(s.onReject[i], Rejection(s.reason.value))
    ensures s.state != Pending ==>
      forall i :: 0 <= i < |s.log| ==> s.log[i].callback.kind == KindOf(Outcome(s))
  {
  }

  /** With distinct children, no callback is ever dispatched twice. */
  lemma NoRepeatedDelivery<V>(s: Snapshot<V>)
    requires Inv(s) && DistinctChildren(s.onFulfill)
    ensures forall i, j :: 0 <= i < j < |s.log| ==> s.log[i].callback != s.log[j].callback
  {
    forall i, j | 0 <= i < j < |s.log| ensures s.log[i].callback != s.log[j].callback {
      assert s.onFulfill[i].child != s.onFulfill[j].child;
    }
  }

  // ---------------------------------------------------------------------
  // The class

  class Promise<V> {
    var state: State
    var value: Option<V>
    var reason: Option<Exception>
    var onFulfill: seq<Callback<V>>
    var onReject: seq<Callback<V>>
    // The dispatches made so far: a record of `callback.dispatch(arg)` calls, not a Ruby field.
    var log: seq<Delivery<V>>

    ghost function Snap(): Snapshot<V>
      reads this
    {
      Snapshot(state, value, reason, onFulfill, onReject, log)
    }

    ghost predicate Valid()
      reads this
    {
      Inv(Snap()) && DistinctChildren(onFulfill)
    }

    /** `initialize`: pending, with both queues empty. */
    constructor ()
      ensures Valid() && Snap() == Initial()
    {
      state := Pending;
      value := None;
      reason := None;
      onFulfill := [];
      onReject := [];
      log := [];
    }

    predicate IsPending()
      requires Valid()
      reads this
      ensures IsPending() <==> value.None? && reason.None?
    {
      state == Pending
    }

    predicate IsFulfilled()
      requires Valid()
      reads this
      ensures IsFulfilled() <==> value.Some?
    {
      state == Fulfilled
    }

    predicate IsRejected()
      requires Valid()
      reads this
      ensures IsRejected() <==> reason.Some? && reason.value.backtrace.Some?
    {
      state == Rejected
    }

    /** `then(on_fulfill, on_reject, &block)`: returns the fresh child promise. */
    method Then(fulfillHandler: Option<Handler>, rejectHandler: Option<Handler>, block: Option<Handler>)
      returns (next: Promise<V>)
      requires Valid()
      modifies this
      ensures Valid()
      ensures fresh(next) && next.Valid()
      ensures old(state) == Pending ==> next.Snap() == Initial()
      ensures Snap() == ThenStep(old(Snap()), fulfillHandler, rejectHandler, block, next)
    {
      ghost var s := Snap();
      var handler := if fulfillHandler.Some? then fulfillHandler else block;
      next := AddCallbacks(handler, rejectHandler);
      MaybeDispatch(onFulfill[|onFulfill| - 1], onReject[|onReject| - 1]);
      ThenKeepsInv(s, fulfillHandler, rejectHandler, block, next);
      assert DistinctChildren(onFulfill) by {
        forall i | 0 <= i < |s.onFulfill| ensures s.onFulfill[i].child != next {
          assert allocated(s.onFulfill[i].child);
        }
      }
    }

    /** `sync` on a resolved promise (the wait for resolution is not modelled). */
    method Sync() returns (r: SyncResult<V>)
      requires Valid() && state != Pending
      ensures state == Fulfilled ==> r == Returned(value.value)
      ensures state == Rejected ==> r == Raised(reason.value)
    {
      if state == Rejected {
        return Raised(reason.value);
      }
      r := Returned(value.value);
    }

    /** `fulfill(value)`. */
    method Fulfill(v: V)
      requires Valid()
      modifies this
      ensures Valid() && Snap() == FulfillStep(old(Snap()), v)
    {
      Dispatch(onFulfill, Fulfilment(v));
      FulfillKeepsInv(old(Snap()), v);
    }

    /**
     * `reject(reason)`; `trace` is the caller's stack. `raised` is true when
     * build_reason raises NoMethodError on a reason that is not an exception.
     */
    method Reject(reasonArg: Option<ReasonArg>, trace: Trace) returns (raised: bool)
      requires Valid()
      modifies this
      ensures Valid() && Snap() == RejectStep(old(Snap()), reasonArg, trace)
      ensures raised <==> reasonArg.Some? && reasonArg.value.PlainObject?
    {
      var normalised := BuildReason(ReasonOrDefault(reasonArg), trace);
      if normalised.None? {
        return true;
      }
      Dispatch(onReject, Rejection(normalised.value));
      RejectKeepsInv(old(Snap()), reasonArg, trace);
      raised := false;
    }

    /** `add_callbacks(on_fulfill, on_reject)`. */
    method AddCallbacks(fulfillHandler: Option<Handler>, rejectHandler: Option<Handler>)
      returns (next: Promise<V>)
      modifies this`onFulfill, this`onReject
      ensures fresh(next) && next.Valid() && next.Snap() == Initial()
      ensures onFulfill == old(onFulfill) + [Callback(OnFulfill, fulfillHandler, next)]
      ensures onReject == old(onReject) + [Callback(OnReject, rejectHandler, next)]
    {
      next := new Promise();
      onFulfill := onFulfill + [Callback(OnFulfill, fulfillHandler, next)];
      onReject := onReject + [Callback(OnReject, rejectHandler, next)];
    }

    /**
     * `dispatch(callbacks, arg) { ... }`: the transition happens before any
     * callback is dispatched, and only from pending.
     */
    method Dispatch(callbacks: seq<Callback<V>>, arg: Arg<V>)
      requires Settled(Snap())
      requires arg.Rejection? ==> arg.reason.backtrace.Some?
      requires forall c <- callbacks :: c.kind == KindOf(arg)
      modifies this`state, this`value, this`reason, this`log
      ensures Snap() == Resolve(old(Snap()), callbacks, arg)
    {
      if state == Pending {
        match arg {
          case Fulfilment(v) =>
            state := Fulfilled;
            value := Some(v);
          case Rejection(e) =>
            state := Rejected;
            reason := Some(e);
        }
        var i := 0;
        while i < |callbacks|
          invariant 0 <= i <= |callbacks|
          invariant Snap() == Resolve(old(Snap()), callbacks[..i], arg)
        {
          assert callbacks[..i + 1][..i] == callbacks[..i];
          DispatchNow(callbacks[i], arg);
          i := i + 1;
        }
        assert callbacks[..i] == callbacks;
      }
    }

    /** `maybe_dispatch(fulfill_callback, reject_callback)`. */
    method MaybeDispatch(fulfillCallback: Callback<V>, rejectCallback: Callback<V>)
      requires Settled(Snap())
      requires fulfillCallback.kind == OnFulfill && rejectCallback.kind == OnReject
      modifies this`log
      ensures log == old(log) + Replay(old(Snap()), fulfillCallback, rejectCallback)
    {
      if state == Fulfilled {
        DispatchNow(fulfillCallback, Fulfilment(value.value));
      }
      if state == Rejected {
        DispatchNow(rejectCallback, Rejection(reason.value));
      }
    }

    /**
     * `dispatch!(callback, arg)` through the immediate `defer`. Only a
     * resolved promise dispatches, only with its own outcome, and only to a
     * callback of the matching kind.
     */
    method DispatchNow(callback: Callback<V>, arg: Arg<V>)
      requires Settled(Snap()) && state != Pending
      requires arg == Outcome(Snap()) && callback.kind == KindOf(arg)
      modifies this`log
      ensures log == old(log) + [Delivery(callback, arg)]
    {
      log := log + [Delivery(callback, arg)];
    }
  }
}
