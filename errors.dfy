/** The three failures the calculator reports to its caller. Each Java
    exception class carries only a fixed message, so a tag is enough. */
module Errors {

  datatype CalcError = DivisionByZero | NotSupported | NumberNotInArea

  /** The outcome of an operation that returns nothing on success
      (a Java `void` method that may throw). */
  datatype Outcome = Pass | Fail(error: CalcError)

  /** The outcome of an operation that returns a value on success. */
  datatype Result<T> = Ok(value: T) | Err(error: CalcError)
}
