/** Optional values and success/failure results, used where the source has
    `undefined` or a thrown error. */
module Wrappers {

  /** `None` is JavaScript's `undefined`. */
  datatype Option<+T> = None | Some(value: T)

  datatype Result<+R, +E> = Success(value: R) | Failure(error: E)
}
