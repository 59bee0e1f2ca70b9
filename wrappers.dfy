/** Option and Result, used for JavaScript's optional fields and for promise rejection. */
module Wrappers {

  datatype Option<+T> = None | Some(value: T)

  datatype Result<+T, +E> = Ok(value: T) | Err(error: E)
}
