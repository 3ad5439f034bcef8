/** Option and Result, the two failure-carrying shapes the model uses for Go's
    `(value, error)` returns and for values that may be absent. */
module Basics {

  datatype Option<+T> = None | Some(value: T)

  datatype Result<+T, +E> = Ok(value: T) | Err(error: E)

  function Max(a: int, b: int): int { if a < b then b else a }
}
