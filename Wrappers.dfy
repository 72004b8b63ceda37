/** Small value types shared by the other modules: nullable references, exceptions
    and the outcome of calls that can throw. */
module Wrappers {

  /** A .NET reference that may be null: `None` is null. */
  datatype Option<+T> = None | Some(value: T)

  /** A thrown .NET exception, reduced to the one property the code reads: its Message. */
  datatype Exception = Exception(message: string)

  /** The outcome of a call that either returns a value or throws. */
  datatype Result<+T> = Ok(value: T) | Threw(exception: Exception)

  /** The outcome of a check that either passes or fails with an error. */
  datatype Outcome<+E> = Pass | Fail(error: E)
}
