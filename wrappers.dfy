/** Failure-compatible wrappers shared by every module of the model. */
module Wrappers {

  /** An optional value; `None` stands for Go's nil (an absent error, a nil map). */
  datatype Option<+T> = None | Some(value: T)

  /** A value or an error, for Go's `(T, error)` pairs and Rust's `Result<T, E>`. */
  datatype Result<+T, +E> = Success(value: T) | Failure(error: E)
}
