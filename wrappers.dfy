/** Option and Result, the two failure-carrying shapes the model needs. */
module Wrappers {

  /** A value that may be absent, such as an environment variable that is not set. */
  datatype Option<+T> = None | Some(value: T)

  /** The value of an expression, or the Python exception its evaluation raises. */
  datatype Result<+R, +E> = Success(value: R) | Failure(error: E)
}
