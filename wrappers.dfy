/** Failure-compatible wrappers used by the rest of the model: PHP's nullable
    values become Option, and thrown exceptions become the Failure / Fail cases. */
module Wrappers {

  datatype Option<+T> = None | Some(value: T)

  datatype Result<+R, +E> = Success(value: R) | Failure(error: E)

  datatype Outcome<+E> = Pass | Fail(error: E)
}
