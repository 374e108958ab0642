/** Result and Option values for operations of the source that raise an
    exception or yield a not-a-number value instead of returning. */
module Wrappers {

  datatype Option<+T> = None | Some(value: T)

  datatype Result<+T, +E> = Ok(value: T) | Err(error: E)
}
