/** Optional values and results with an error, as used across the model. */
module Wrappers {

  /** A value that may be absent (Python's `Optional[...]`, `None` when absent). */
  datatype Option<+T> = None | Some(value: T)

  /** A value, or the error that prevented it. */
  datatype Result<+R, +E> = Success(value: R) | Failure(error: E)
}
