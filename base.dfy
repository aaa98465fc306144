/** Go values the adapters pass around: optional values (nil), errors and bytes. */
module Base {

  /** A value that may be absent; `None` stands for Go's nil. */
  datatype Option<+T> = None | Some(value: T)

  /** A Go `(value, error)` pair where exactly one side is meaningful. */
  datatype Result<+T, +E> = Success(value: T) | Failure(error: E)

  newtype byte = b: int | 0 <= b < 256

  /** A non-nil Go `error`, identified by its message. */
  datatype Error = Error(message: string)
}
