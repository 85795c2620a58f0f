/** Failure-compatible wrappers shared by the other modules. */
module Wrappers {

  /** A value that may be absent (a JavaScript `undefined` global or an empty cache slot). */
  datatype Option<+T> = None | Some(value: T)

  /** A computed value, or the reason it could not be computed. */
  datatype Result<+T, +E> = Success(value: T) | Failure(error: E)
}
