/** Small value types shared by every part of the model: Go's nil-able
    pointers, Go's `error` values and the 64-bit integers of the cloud SDK. */
module Common {

  /** A Go pointer that may be nil: `None` is nil, `Some(v)` points at `v`. */
  datatype Option<+T> = None | Some(value: T)

  /** A Go `error`: only its message is observable. */
  datatype Error = Error(message: string)

  /** Go's `int64`. */
  newtype Int64 = x: int | -0x8000_0000_0000_0000 <= x < 0x8000_0000_0000_0000
}
