/** Option and Result, the two failure-carrying shapes the services return. */
module Wrappers {

  /** `null` / `undefined` in the source. */
  datatype Option<+T> = None | Some(value: T)

  /** A value or the message of the `Error` the source throws. */
  datatype Result<+T> = Ok(value: T) | Err(message: string)
}
