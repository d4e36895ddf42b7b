/**
 * Failure-carrying values used in place of the source's nulls and exceptions.
 */
module Wrappers {

  /** A value that may be missing; stands for a nullable reference. */
  datatype Option<+T> = None | Some(value: T)

  /** Either a value or the error that took its place (a thrown exception). */
  datatype Result<+T, +E> = Success(value: T) | Failure(error: E)
}
