/** Option and Result values used where the JavaScript code returns
    `null`/`undefined` or throws. */
module Wrappers {

  datatype Option<+T> = None | Some(value: T)

  /** `Err` carries the message of the Error the JavaScript code throws. */
  datatype Result<+T> = Ok(value: T) | Err(error: string)
}
