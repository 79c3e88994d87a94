/** Option, Result and Outcome: the shapes of Rust's Option<T>, Result<T, E> and Result<(), E>. */
module Wrappers {

  datatype Option<+T> = None | Some(value: T)

  datatype Result<+T, +E> = Success(value: T) | Failure(error: E)

  /** A result that carries no value on success, as Rust's Result<(), E>. */
  datatype Outcome<+E> = Pass | Fail(error: E)
}
