/** Values that may be absent, and results that may fail with a reason. */
module Wrappers {
  datatype Option<T> = None | Some(value: T)

  datatype Result<T, R> = Ok(value: T) | Err(reason: R)
}
