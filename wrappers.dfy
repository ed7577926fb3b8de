/** Optional values: a JavaScript field that may be `undefined` or `null`. */
module Wrappers {

  datatype Option<+T> = None | Some(value: T)

  /** Either a value or the message of the error the source throws. */
  datatype Result<+T> = Ok(value: T) | Err(message: string)
}
