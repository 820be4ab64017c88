/** How a call ends. */
module Outcomes {
  /** Normally, with one of FuseKit's own errors, with an operating-system error, or with
      any other exception. */
  datatype Fault = Fine | FuseKitFault(message: string) | OsFault | OtherFault {
    predicate IsFailure() { !Fine? }
    function PropagateFailure<U>(): Outcome<U> requires !Fine? { Raised(this) }
  }

  datatype Outcome<T> = Returned(value: T) | Raised(fault: Fault) {
    predicate IsFailure() { Raised? }
    function PropagateFailure<U>(): Outcome<U> requires Raised? { Raised(fault) }
    function Extract(): T requires Returned? { value }
  }

  datatype Option<T> = None | Some(value: T)

  /** The first of two faults in a row, if any. */
  function Then(first: Fault, second: Fault): Fault {
    if first.Fine? then second else first
  }

  /** `if not ok: failures.append(failure)`. */
  function Note<T>(ok: bool, failure: T, failures: seq<T>): (r: seq<T>)
    ensures r == [] <==> failures == [] && ok
  {
    if ok then failures else failures + [failure]
  }
}
