/** Failure-carrying results and the Python exception kinds the simulator raises. */
module Wrappers {

  /** The exception classes that the modelled code raises (or that numpy and
      the Python runtime raise on its behalf). */
  datatype PyError =
    | TypeError
    | ValueError
    | IndexError
    | NameError
    | AttributeError

  datatype Option<+T> = None | Some(value: T)

  datatype Result<+T> = Ok(value: T) | Err(error: PyError) {
    predicate IsFailure() { Err? }

    function PropagateFailure<U>(): Result<U>
      requires Err?
    {
      Err(error)
    }

    function Extract(): T
      requires Ok?
    {
      value
    }
  }

  /** A computation that either finishes or raises; used by operations that
      only change state. */
  datatype Outcome = Pass | Fail(error: PyError) {
    predicate IsFailure() { Fail? }

    function PropagateFailure(): Outcome
      requires Fail?
    {
      this
    }
  }
}
