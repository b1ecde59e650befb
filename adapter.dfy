/**
 * The test adapter: `create_async_constructor` turns an exported test
 * function into an invocable that hands exactly one outcome to its callback.
 *
 * The synchronous path (a try/catch around the call) is modelled as a
 * function of what the call throws. The asynchronous path (a promise with a
 * timeout and a process-wide `uncaughtException` listener) is represented
 * only by the outcome it ends with.
 */
module Adapter {
  import opened Values

  /** `DEFAULT_TIMEOUT`, in milliseconds. */
  const DEFAULT_TIMEOUT: nat := 4000

  /** A thrown value: its `name`, `message` and `actual` properties and what
      its `toString()` returns. */
  datatype Fault = Fault(name: string, message: Value, actual: Value, text: string)

  /** The record `{ failure, error }` an invocable passes to its callback. */
  datatype Outcome = Outcome(failure: Value, error: Value)

  /** The behaviour of an exported test function under each calling
      convention: called with no argument it returns or throws; called with a
      completion signal, the asynchronous adapter ends with `whenAwaited`. */
  datatype Body = Body(whenCalled: Option<Fault>, whenAwaited: Outcome)

  /** What `create_async_constructor(async, timeout, fn)` returns. */
  datatype Invocable = Invocable(async: bool, timeout: nat, fn: Body)

  /** The duck-typed check `err.name == 'AssertionError'`. */
  predicate IsAssertion(f: Fault) {
    f.name == "AssertionError"
  }

  /** The synchronous branch: the outcome starts as `{ failure: null,
      error: null }`; an assertion sets `failure` to `message || actual`, any
      other fault sets `error` to its string form. */
  function SyncOutcome(thrown: Option<Fault>): (r: Outcome)
    ensures thrown.None? ==> r == Outcome(Null, Null)
    ensures Nullish(r.failure) || Nullish(r.error)
    ensures thrown.Some? && IsAssertion(thrown.value) ==>
              r.error == Null &&
              (Truthy(r.failure) <==> Truthy(thrown.value.message) || Truthy(thrown.value.actual))
    ensures thrown.Some? && Truthy(thrown.value.message) && IsAssertion(thrown.value) ==>
              r.failure == thrown.value.message
    ensures thrown.Some? && !Truthy(thrown.value.message) && IsAssertion(thrown.value) ==>
              r.failure == thrown.value.actual
    ensures thrown.Some? && !IsAssertion(thrown.value) ==>
              r.failure == Null && r.error == Str(thrown.value.text)
  {
    match thrown
    case None => Outcome(Null, Null)
    case Some(f) =>
      if IsAssertion(f) then Outcome(Or(f.message, f.actual), Null)
      else Outcome(Null, Str(f.text))
  }

  /** Calling an invocable: the outcome its callback receives. */
  function Invoke(inv: Invocable): Outcome {
    if inv.async then inv.fn.whenAwaited else SyncOutcome(inv.fn.whenCalled)
  }
}
