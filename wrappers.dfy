/** Option and Result, used for JavaScript values that may be `undefined`
    and for operations that either return a value or throw. */
module Wrappers {

  datatype Option<+T> = None | Some(value: T)

  datatype Result<+T, +E> = Ok(value: T) | Err(error: E)
}
