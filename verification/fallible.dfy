/** Failure-compatible wrappers shared by the path layout and the derive validator.
    `Result` plays the part of Rust's `Result`/`Fallible`, and it works with `:-`. */
module Fallible {

  /** An optional value, Rust's `Option`. */
  datatype Option<+T> = None | Some(value: T)

  /** Either a value or an error, Rust's `Result`. */
  datatype Result<+T, +E> = Ok(value: T) | Err(error: E) {

    predicate IsFailure() {
      Err?
    }

    function PropagateFailure<U>(): Result<U, E>
      requires Err?
    {
      Err(error)
    }

    function Extract(): T
      requires Ok?
    {
      value
    }
  }
}
