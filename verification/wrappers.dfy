/** Failure-compatible wrappers used throughout the model: Go's `(T, error)`
    pairs become `Result<T, E>`, optional values and nil pointers become `Option<T>`. */
module Wrappers {

  datatype Option<+T> = None | Some(value: T)

  datatype Result<+T, +E> = Success(value: T) | Failure(error: E) {
    predicate IsFailure() { Failure? }
  }
}
