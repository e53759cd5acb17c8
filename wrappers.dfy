/** Optional values and fallible results. */
module Wrappers {

  datatype Option<T> = None | Some(value: T)

  /** A computation that either produces a value or raises an error, named by `error`. */
  datatype Result<T> = Ok(value: T) | Err(error: string)
}
