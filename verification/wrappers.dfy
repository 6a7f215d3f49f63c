/** Failure-compatible result type used for the Python exceptions the core can raise. */
module Wrappers {

  /** The Python exceptions the modelled code can raise. */
  datatype Error =
    | ZeroDivision   // ZeroDivisionError from `/` with a zero divisor
    | IndexOutOfRange // IndexError from subscripting a list or a str

  /** Either a value or the exception that replaced it. */
  datatype Result<+T> = Success(value: T) | Failure(error: Error) {

    predicate IsFailure() {
      Failure?
    }

    function PropagateFailure<U>(): Result<U>
      requires Failure?
    {
      Failure(error)
    }

    function Extract(): T
      requires Success?
    {
      value
    }
  }
}
