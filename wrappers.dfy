/** Option and Result: absence ("undefined"/"null") and thrown errors of the original code. */
module Wrappers {

  datatype Option<+T> = None | Some(value: T)

  datatype Result<+T, +E> = Success(value: T) | Failure(error: E)
}
