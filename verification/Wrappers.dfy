/** Failure-compatible results.  A thrown accounting error is an `Err` carrying
    the error code; `Need` is the check that throws it. */
module Wrappers {

  datatype Option<+T> = None | Some(value: T) {
    function GetOr(default: T): T {
      if Some? then value else default
    }
  }

  datatype Result<+T> = Ok(value: T) | Err(code: string) {
    predicate IsFailure() { Err? }
    function PropagateFailure<U>(): Result<U>
      requires Err?
    { Err(code) }
    function Extract(): T
      requires Ok?
    { value }
  }

  /** The value of a check that only passes or throws. */
  datatype Unit = Unit

  datatype Outcome = Pass | Fail(code: string) {
    predicate IsFailure() { Fail? }
    function PropagateFailure<U>(): Result<U>
      requires Fail?
    { Err(code) }
  }

  function Need(ok: bool, code: string): Outcome {
    if ok then Pass else Fail(code)
  }
}
