/** Failure-compatible wrappers shared by the render pass and the movement component.
    `Option` stands for a nullable shared pointer (`nullptr` is `None`); `Result`
    stands for an operation that may throw instead of returning a value. */
module Wrappers {

  /** A value that may be absent, as a null shared pointer may be. */
  datatype Option<+T> = None | Some(value: T)

  /** Either the value an operation produced or the error it raised. */
  datatype Result<+R, +E> = Success(value: R) | Failure(error: E)
}
