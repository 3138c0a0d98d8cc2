/** The Python exceptions the modelled code raises, and the result types that
    carry them instead of raising. */
module Errors {

  /** An exception: its Python class and its message. */
  datatype Error =
    | AssertionError(msg: string)
    | NotImplementedError(msg: string)
    | ValueError(msg: string)
    | IndexError(msg: string)
    | RuntimeError(msg: string)

  /** A value, or the exception raised instead of returning it. */
  datatype Result<+T> = Ok(value: T) | Err(error: Error)

  /** Normal completion of an operation that returns nothing, or the exception it raised. */
  datatype Outcome = Pass | Fail(error: Error)
}
