/** Option and Result values standing in for Go's nil-able results and (value, error) pairs. */
module Wrappers {

  datatype Option<+T> = None | Some(value: T)

  /** A value or an error message; Go's `error` is modelled by its `Error()` text. */
  datatype Result<+T> = Success(value: T) | Failure(error: string)
}
