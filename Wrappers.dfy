/** Absent values and error returns, used throughout the model. */
module Wrappers {

  /** A value that may be absent: Python's `None` result of a lookup that found nothing. */
  datatype Option<+T> = None | Some(value: T)

  /** A value or the error that the Python code would raise instead. */
  datatype Result<+R, +E> = Success(value: R) | Failure(error: E)
}
