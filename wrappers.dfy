/** Option and Result, the shapes the service uses for "maybe absent" and "failed". */
module Wrappers {

  datatype Option<+T> = None | Some(value: T)

  datatype Result<+R, +E> = Ok(value: R) | Err(error: E)
}
