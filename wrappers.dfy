/** Option and Result, used for the values the source leaves `undefined`/`null` and for thrown errors. */
module Wrappers {

  datatype Option<+T> = None | Some(value: T)

  datatype Result<+R, +E> = Ok(value: R) | Err(error: E)
}
