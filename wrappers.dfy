// Option and Result, the two wrappers every other module uses for the
// source's `None` returns, `nil` returns and raised errors.
module Wrappers {
  datatype Option<T> = None | Some(value: T)

  datatype Result<T, E> = Ok(value: T) | Err(error: E)
}
