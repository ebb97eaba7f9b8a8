/** Option and Result values for the places where the tracker can come back empty-handed or fail. */
module Wrappers {

  datatype Option<+T> = None | Some(value: T)

  /** `Failure` carries what the failing step could not handle. */
  datatype Result<+R, +E> = Success(value: R) | Failure(error: E)
}
