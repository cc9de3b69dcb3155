/** Failure-carrying values used for the Python exceptions of the modelled code. */
module Wrappers {

  /** A possibly absent value (Python's `Optional[...]` / `None`). */
  datatype Option<+T> = None | Some(value: T)

  /** The outcome of an operation that returns nothing (`-> None`) or raises. */
  datatype Outcome<+E> = Pass | Fail(error: E)

  /** The outcome of an operation that returns a value or raises. */
  datatype Result<+R, +E> = Ok(value: R) | Err(error: E)
}
