/** Optional and fallible values shared by the other modules. */
module Wrappers {

  /** A value that may be absent: Python's `None` versus a real value. */
  datatype Option<+T> = None | Some(value: T)

  /** The outcome of a call into a foreign library that may raise. */
  datatype Result<+R, +E> = Success(value: R) | Failure(error: E)
}
