/** Option and Result, for absent JSON keys and for raised errors. */
module Wrappers {

  /** A value that may be absent: a missing dictionary key, a null React state. */
  datatype Option<+T> = None | Some(value: T)

  /** The outcome of an operation that either returns a value or raises an error. */
  datatype Result<+R, +E> = Success(value: R) | Failure(error: E)
}
