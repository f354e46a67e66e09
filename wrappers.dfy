/** Optional values, success/failure results and bytes shared by every module. */
module Wrappers {

  /** Python's `None` / TypeScript's `null` next to a present value. */
  datatype Option<+T> = None | Some(value: T)

  /** An operation that either yields a value or reports an error message. */
  datatype Result<+T, +E> = Ok(value: T) | Err(error: E)

  /** One octet of audio data. */
  type Byte = b: int | 0 <= b < 256
}
