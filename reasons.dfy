/**
 * Rejection reasons and their normalisation (Promise#build_reason).
 *
 * Ruby's duck typing is replaced by an explicit datatype: an exception class
 * (which responds to `new`), an exception object (which has a backtrace,
 * possibly still nil), or any other object (which has no `backtrace` method).
 * The call-stack snapshot that `reject` takes from `caller` is a parameter.
 */
module Reasons {
  import opened Wrappers

  /** A captured call stack, one frame per entry, as Ruby's `caller` returns it. */
  type Trace = seq<string>

  /** An exception object: its class name and its backtrace, nil until set. */
  datatype Exception = Exception(className: string, backtrace: Option<Trace>)

  /** What a producer may hand to `reject` once `nil` has been defaulted away. */
  datatype ReasonArg =
    | ExceptionClass(name: string)
    | ExceptionObject(exception: Exception)
    | PlainObject(description: string)

  /** The class `reject` falls back to when it is given no reason. */
  const RuntimeError: string := "RuntimeError"

  /**
   * build_reason(reason, backtrace): instantiate a class, then attach the
   * backtrace unless the instance already has one. None stands for the
   * NoMethodError that `reason.backtrace` raises on an object that is not an
   * exception.
   */
  function BuildReason(reason: ReasonArg, backtrace: Trace): (r: Option<Exception>)
    ensures r.None? <==> reason.PlainObject?
    ensures r.Some? ==> r.value.backtrace.Some?
    ensures reason.ExceptionClass? ==> r == Some(Exception(reason.name, Some(backtrace)))
    ensures reason.ExceptionObject? ==> r.Some? && r.value.className == reason.exception.className
    ensures reason.ExceptionObject? && reason.exception.backtrace.Some? ==> r == Some(reason.exception)
    ensures reason.ExceptionObject? && reason.exception.backtrace.None? ==> r.value.backtrace == Some(backtrace)
  {
    match reason
    case PlainObject(_) => None
    case ExceptionClass(name) => Some(WithBacktrace(Exception(name, None), backtrace))
    case ExceptionObject(e) => Some(WithBacktrace(e, backtrace))
  }

  /** `reason.set_backtrace(backtrace) unless reason.backtrace`. */
  function WithBacktrace(e: Exception, backtrace: Trace): (r: Exception)
    ensures r.className == e.className && r.backtrace.Some?
    ensures e.backtrace.Some? ==> r == e
    ensures e.backtrace.None? ==> r.backtrace == Some(backtrace)
  {
    if e.backtrace.Some? then e else e.(backtrace := Some(backtrace))
  }

  /**
   * A reason that has been normalised once is kept as it is when it is
   * normalised again (a rejection forwarded down a chain keeps the stack of
   * its origin), whatever stack the second call site has.
   */
  lemma BuildReasonStable(reason: ReasonArg, first: Trace, later: Trace)
    requires !reason.PlainObject?
    ensures BuildReason(reason, first).Some?
    ensures BuildReason(ExceptionObject(BuildReason(reason, first).value), later) == BuildReason(reason, first)
  {
  }
}
