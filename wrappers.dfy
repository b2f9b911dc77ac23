/** Option and Result, used for Python's `None` and for a raised `ValueError`. */
module Wrappers {
  datatype Option<+T> = None | Some(value: T)

  datatype Result<+R, +E> = Ok(value: R) | Err(error: E)
}
