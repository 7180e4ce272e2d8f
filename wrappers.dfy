/** Option and Result, the two wrappers every other module uses for "no value" and "exception". */
module Wrappers {

  datatype Option<+T> = None | Some(value: T)

  /** A computation that either produced a value or raised an exception. `:-` propagates the failure. */
  datatype Result<+T, +E> = Success(value: T) | Failure(error: E)
  {
    predicate IsFailure() { Failure? }

    function PropagateFailure<U>(): Result<U, E>
      requires Failure?
    {
      Failure(error)
    }

    function Extract(): T
      requires Success?
    {
      value
    }
  }
}
