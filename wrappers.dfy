/** Optional values and results, as used by the rest of the model. */
module Wrappers {

  /** A Python value that may be `None`. */
  datatype Option<+T> = None | Some(value: T)

  /** The outcome of a call that may raise: `Failure` carries the text `str()` gives for the exception. */
  datatype Result<+R, +E> = Success(value: R) | Failure(error: E)
}
