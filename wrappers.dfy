/** Failure-compatible wrappers used for Java's null returns and thrown exceptions. */
module Wrappers {

  /** A Java reference that may be null, or a value that may be missing. */
  datatype Option<+T> = None | Some(value: T)

  /** A call that either returns a value or throws. */
  datatype Result<+T, +E> = Success(value: T) | Failure(error: E)

  /** A void call that either completes or throws. */
  datatype Outcome<+E> = Pass | Fail(error: E)
}
