/** Failure-carrying values shared by every module of the model. */
module Wrappers {

  datatype Option<T> = None | Some(value: T)

  /** A computation that yields a value or an error, as Rust's `Result<T, E>`. */
  datatype Result<T, E> = Ok(value: T) | Err(error: E)

  /** A computation that yields nothing or an error, as Rust's `Result<(), E>`. */
  datatype Outcome<E> = Pass | Fail(error: E)
}
