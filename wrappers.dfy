/** Option and Result, the failure-carrying values every module returns instead of Go's (value, error) pairs. */
module Wrappers {

  datatype Option<+T> = None | Some(value: T)

  /** A Go `error` result: `Ok` is a nil error, `Err` carries the error's text. */
  datatype Result<+T> = Ok(value: T) | Err(error: string)
}
