/**
  Small failure-carrying datatypes used across the model: `Option` for a
  lookup that may miss and `Result` for an operation that raises in the
  original program.
 */
module Wrappers {

  datatype Option<+T> = None | Some(value: T)

  datatype Result<+R, +E> = Success(value: R) | Failure(error: E)
}
