/** Option and Result, the two wrappers the model uses for absent values
    (None / null / undefined) and for operations that raise. */
module Wrappers {
  datatype Option<+T> = None | Some(value: T)

  datatype Result<+T, +E> = Ok(value: T) | Err(error: E)
}
