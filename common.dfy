/** Failure-carrying wrappers shared by the other modules. */
module Common {

  /** A value that may be absent: Python's `None` or a present value. */
  datatype Option<+T> = None | Some(value: T)

  /** The result of an operation that either returns a value or raises. */
  datatype Result<+T, +E> = Ok(value: T) | Err(error: E)

  /** The completion of an operation that returns nothing or raises. */
  datatype Outcome<+E> = Pass | Fail(error: E)
}
