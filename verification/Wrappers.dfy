/** The types the other modules share. */
module Wrappers {

  datatype Option<+T> = None | Some(value: T)

  datatype Result<+T, +E> = Ok(value: T) | Err(error: E)

  /** The region of a job, a row or a breaker. Null is one of its own. */
  type Region = Option<string>
}
