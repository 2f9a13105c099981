/** Option, Result and Outcome: the model's stand-ins for Python's None and for
    raised exceptions. */
module Wrappers {

  datatype Option<+T> = None | Some(value: T)

  /** A computation that either returns a value or raises. */
  datatype Result<+T, +E> = Ok(value: T) | Err(error: E)

  /** A statement that either completes or raises. */
  datatype Outcome<+E> = Pass | Fail(error: E)
}
