/** Small failure-carrying datatypes shared by the scan model. */
module Outcomes {

  /** A Python value that may be `None`. */
  datatype Option<+T> = None | Some(value: T)

  /** The Python exceptions the scan loop can raise on its own. */
  datatype Error =
    | IndexError   // `vect[0]` on an empty payload string
    | EOFError     // `input()` with no answer left on standard input

  /** Either a value or the exception that was raised instead. */
  datatype Result<+T> = Ok(value: T) | Raised(error: Error)
}
