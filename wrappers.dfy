/** Optional values and results with an error, shared by the other modules. */
module Wrappers {

  /** A value that may be absent: a NULL pointer, a message field that is not there. */
  datatype Option<+T> = None | Some(value: T)

  /** A value, or the error the source reports by throwing. */
  datatype Result<+T, +E> = Success(value: T) | Failure(error: E)
}
