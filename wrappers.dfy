/** Option and Result, used for the source's nullable values and thrown exceptions. */
module Wrappers {

  /** `None` stands for a .NET `null`. */
  datatype Option<+T> = None | Some(value: T)

  /** `Err` stands for an exception thrown instead of a value being returned. */
  datatype Result<+T, +E> = Ok(value: T) | Err(error: E)
}
