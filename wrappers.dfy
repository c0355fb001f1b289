/** Optional values and results with an error, as the Go code's (value, error) pairs are read here. */
module Wrappers {

  datatype Option<T> = None | Some(value: T)

  /** `Ok(v)` stands for Go's `(v, nil)`, `Err(e)` for `(nil, e)`. */
  datatype Result<T, E> = Ok(value: T) | Err(error: E)
}
