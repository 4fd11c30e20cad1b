/** Optional values and success-or-error results. */
module Wrappers {
  /** A shared pointer that may be null, a combo box item without data. */
  datatype Option<+T> = None | Some(value: T)

  /** The value an operation produces, or why it stopped. */
  datatype Result<+T, +E> = Success(value: T) | Failure(error: E)
}
