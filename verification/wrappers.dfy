/** Failure-carrying values: Python's `None` and raised exceptions, made explicit. */
module Wrappers {

  /** A Python value that may be `None`. */
  datatype Option<+T> = None | Some(value: T)

  /** The outcome of a Python call that returns a value or raises. */
  datatype Result<+R, +E> = Success(value: R) | Failure(error: E)

  /** The outcome of a Python call that returns nothing or raises. */
  datatype Outcome<+E> = Pass | Fail(error: E)
}
