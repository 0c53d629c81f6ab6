/** Small failure-carrying datatypes shared by the other modules. */
module Wrappers {

  /** A value that may be absent, such as an optional key of the upload target. */
  datatype Option<+T> = None | Some(value: T)

  /** A computation that either produced a value or raised an error. */
  datatype Result<+T, +E> = Ok(value: T) | Err(error: E)
}
