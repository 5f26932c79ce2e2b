/** Failure-carrying result types and the Python exceptions the modelled code can raise. */
module Wrappers {

  /** Absent-or-present value, as returned by a dictionary lookup. */
  datatype Option<+T> = None | Some(value: T)

  /** The outcome of an operation that may raise. */
  datatype Result<+T, +E> = Success(value: T) | Failure(error: E)

  /** The exceptions raised by the modelled code paths. */
  datatype Error =
    | DivisionByZero            // Python's ZeroDivisionError
    | MissingKey(key: string)   // Python's KeyError on `d[key]`
    | NotComparable(key: string) // Python's TypeError comparing a string with a number
}
