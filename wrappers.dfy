/** Optional values, results and pass/fail outcomes: the source's `null` returns and thrown errors. */
module Wrappers {

  datatype Option<+T> = None | Some(value: T)

  /** A computation that either produced a value or threw an error carrying a message. */
  datatype Result<+T> = Ok(value: T) | Err(message: string)

  /** A computation that either completed or threw an error carrying a message. */
  datatype Outcome = Pass | Fail(message: string)
}
