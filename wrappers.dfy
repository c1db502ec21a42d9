/** Optional values and Go-style fallible results, where a Go `error` is its message text. */
module Wrappers {

  datatype Option<+T> = None | Some(value: T)

  /** The pair `(value, error)` that Go functions return: either a value or an error message. */
  datatype Result<+T> = Ok(value: T) | Err(msg: string)
}
