/** Option and Result, the two failure-carrying datatypes the rest of the model uses
    for Go's nil pointers and (value, error) returns. */
module Wrappers {

  datatype Option<+T> = None | Some(value: T)

  datatype Result<+R, +E> = Ok(value: R) | Err(error: E)
}
