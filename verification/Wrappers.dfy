/** Optional values and fallible results, for the (value, ok) and (value, error) pairs of the daemon. */
module Wrappers {
  datatype Option<+T> = None | Some(value: T)

  datatype Result<+T, +E> = Ok(value: T) | Err(error: E)
}
