/** Option and Result, used where the Python code returns None or raises. */
module Outcomes {

  datatype Option<+T> = None | Some(value: T)

  datatype Result<+R, +E> = Success(value: R) | Failure(error: E)
}
