/** Option and result datatypes used by the path parser and the command line router. */
module Wrappers {

  /** An optional value: `None` where the source gets a nil slice or no value. */
  datatype Option<+T> = None | Some(value: T)

  /** A value or the error that the source returns instead of it. */
  datatype Result<+T, +E> = Ok(value: T) | Err(error: E)
}
