/** Outcome types shared by the model: an optional value, and the settled
    value of a promise that either resolved or threw. */
module Wrappers {

  datatype Option<+T> = None | Some(value: T)

  /** A remote call's outcome: the resolved value, or the message of the
      error it threw. */
  datatype Result<+T> = Ok(value: T) | Err(message: string)
}
