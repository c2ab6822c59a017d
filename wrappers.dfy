/** Option and Result values used for Python's `None` and for raised errors. */
module Wrappers {

  /** `None` stands for Python's `None`. */
  datatype Option<+T> = None | Some(value: T)

  /** `Err` stands for an exception the source lets propagate to its caller. */
  datatype Result<+T, +E> = Ok(value: T) | Err(error: E)
}
