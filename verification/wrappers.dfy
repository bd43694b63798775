/** The result type of every operation that can raise. */
module Wrappers {

  /** Either the value an operation returns or the exception it raises. */
  datatype Result<+T, +E> = Success(value: T) | Failure(error: E)
}
