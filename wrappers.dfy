/** Option and Result, for values that may be absent and computations that may throw. */
module Wrappers {

  /** A value that may be missing, e.g. the number `Date.parse` yields or its `NaN`. */
  datatype Option<+T> = None | Some(value: T)

  /** The outcome of a JavaScript evaluation: a value, or the text of the exception it throws. */
  datatype Result<+T> = Success(value: T) | Failure(error: string)
}
