/** Failure-carrying values used wherever the Python code returns None, raises,
    or returns either a value or an error message. */
module Wrappers {

  datatype Option<+T> = None | Some(value: T)

  datatype Result<+R, +E> = Success(value: R) | Failure(error: E) {
    predicate IsFailure() { Failure? }
  }
}
