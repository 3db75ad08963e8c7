/** Results of calls that may raise, and optional values. */
module Wrappers {

  datatype Option<+T> = None | Some(value: T)

  /** What an exception carries into a handler: its `code` attribute and its text. */
  datatype Error = Error(code: string, message: string)

  /** The result of a call in the source: a value, or an exception. */
  datatype Outcome<+T> = Ok(value: T) | Raise(error: Error)
}
