/** Small value types shared by every other module. */
module Common {

  /** A value that may be absent: Python's `None` versus a present value. */
  datatype Option<+T> = None | Some(value: T)

  /** One octet of a downloaded audio file. */
  type byte = x: int | 0 <= x < 256
}
