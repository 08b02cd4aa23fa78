/** The optional-value and result datatypes used by the lexer and the parser. */
module Wrappers {

  /** A value that may be absent: the `null` of the source. */
  datatype Option<+T> = None | Some(value: T)

  /** Either a value or the error that aborted the computation (a thrown `Error` in the source). */
  datatype Result<+T, +E> = Ok(value: T) | Err(error: E)
}
