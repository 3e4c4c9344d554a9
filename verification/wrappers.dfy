/** The three shapes a modelled Python call can end in: `Option` for a
    value that may be None, `Result` for a value or a raised exception, and
    `Outcome` for a check that returns nothing or raises. `Result` supports
    `:-`, so a raised exception propagates as in Python. */
module Wrappers {

  datatype Option<+T> = None | Some(value: T)

  datatype Result<+R, +E> = Success(value: R) | Failure(error: E) {

    predicate IsFailure() {
      Failure?
    }

    function PropagateFailure<U>(): Result<U, E>
      requires Failure?
    {
      Failure(error)
    }

    function Extract(): R
      requires Success?
    {
      value
    }
  }

  datatype Outcome<+E> = Pass | Fail(error: E)
}
