/** `Option` and `Result`, the two wrapper types the model shares. */
module Wrappers {

  /** A value that may be missing; `None` stands for JavaScript's NaN where a number is parsed. */
  datatype Option<+T> = None | Some(value: T)

  /** The outcome of a step that can fail with an error value. */
  datatype Result<+R, +E> = Success(value: R) | Failure(error: E)
}
