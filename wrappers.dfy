/** Kotlin's nullable values, stream values that may have failed, and calls that may throw. */
module Wrappers {

  /** A Kotlin `T?`: `None` is `null`. */
  datatype Option<+T> = None | Some(value: T)

  /** A value an upstream flow delivered, or the throwable it failed with. */
  datatype Result<+T, +E> = Ok(value: T) | Err(error: E)

  /** A call that returns normally or throws. */
  datatype Outcome<+E> = Pass | Fail(error: E)
}
