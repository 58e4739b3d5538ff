/** Option, Result and Outcome: the Rust `Option`, `Result<T, E>` and `Result<(), E>` of the back end, and the
    "value or undefined" of the front end. */
module Wrappers {

  datatype Option<+T> = None | Some(value: T)

  datatype Result<+T, +E> = Success(value: T) | Failure(error: E)

  /** A `Result<(), E>`: the operation either passes or fails with an error. */
  datatype Outcome<+E> = Pass | Fail(error: E)
}
