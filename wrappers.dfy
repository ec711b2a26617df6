/** Success/failure values used at every boundary where the Python code can raise. */
module Wrappers {

  datatype Option<+T> = None | Some(value: T)

  /** Either a value or the error that the Python code would raise or report instead. */
  datatype Result<+R, +E> = Success(value: R) | Failure(error: E)
}
