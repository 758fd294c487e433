/** Option and Result, the two failure-carrying datatypes the model uses for Go's
    `(value, error)` returns and values that may be nil. */
module Wrappers {

  datatype Option<+T> = None | Some(value: T)

  datatype Result<+T, +E> = Ok(value: T) | Err(error: E)
}
