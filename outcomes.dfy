/**
 * Option and Result values, and the failures the log-review program raises.
 * The program signals every failure with an exception; here each one is a
 * `Fault` value carried by a `Failure` result.
 */
module Outcomes {

  /** A value that may be missing (a null reference, an absent XML attribute). */
  datatype Option<+T> = None | Some(value: T)

  /** The outcome of an operation that may throw. */
  datatype Result<+R, +E> = Success(value: R) | Failure(error: E)

  /** The exceptions thrown by the core, by kind and by the parameter or text they name. */
  datatype Fault =
    | ArgumentNull(paramName: string)             // ArgumentNullException
    | ArgumentInvalid(paramName: string)          // ArgumentException
    | FormatInvalid(what: string)                 // FormatException from DateTime.Parse / IPAddress.Parse
    | NotImplemented(message: string)             // NotImplementedException
}
