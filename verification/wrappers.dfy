/** Result, outcome and option types shared by the storage model. */
module Wrappers {

  /** Either a value or the error the operation raised. */
  datatype Result<+T, +E> = Success(value: T) | Failure(error: E)

  /** The outcome of an operation that returns nothing (Python `None`) or raises. */
  datatype Outcome<+E> = Pass | Fail(error: E)

  /** An optional value. */
  datatype Option<+T> = None | Some(value: T)
}
