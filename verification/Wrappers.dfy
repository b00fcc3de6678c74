/** Results that may be missing or failed, bytes, and lists made of what holds. */
module Wrappers {
  type Byte = b: int | 0 <= b < 256

  datatype Option<+T> = None | Some(value: T)

  datatype Result<+T, +E> = Ok(value: T) | Err(error: E)

  /** The item, if the condition holds: lists of issues are said as sums of these. */
  function Given<T>(condition: bool, item: T): seq<T> {
    if condition then [item] else []
  }
}
