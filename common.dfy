/** Small shared vocabulary: optional values and bytes. */
module Common {

  /** A value that may be absent (Python's `None`). */
  datatype Option<+T> = None | Some(value: T)

  /** One byte of a Python `bytes` object. */
  newtype Byte = b: int | 0 <= b < 256
}
