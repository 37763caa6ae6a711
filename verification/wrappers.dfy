/** Failure-compatible wrappers: `Option` models a Java reference that may be
    null, `Result` models a value or the exception thrown instead of it. */
module Wrappers {

  datatype Option<+T> = None | Some(value: T)

  datatype Result<+R, +E> = Success(value: R) | Failure(error: E)
}
