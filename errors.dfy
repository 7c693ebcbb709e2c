/** Error kinds, results and optional values shared by the whole model. */
module Errors {

  /** The exception classes the modelled code raises. Messages are not modelled. */
  datatype Error =
    | IncorrectShapeError
    | TypeError
    | ValueError
    | IndexError
    | KeyError
    | IncompatibleModelError

  /** A returned value, or the error raised instead. */
  datatype Result<+T> = Ok(value: T) | Err(error: Error)

  /** A check that either passes or raises. */
  datatype Outcome = Pass | Fail(error: Error)

  datatype Option<+T> = None | Some(value: T)
}
