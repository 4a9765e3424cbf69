/** Small value types shared by the rest of the model. */
module Common {

  /** An octet of a Kafka message key or value. */
  newtype byte = x: int | 0 <= x < 0x100

  /** A Go pointer or interface value that may be nil. */
  datatype Option<+T> = None | Some(value: T)

  /** A Go `(value, error)` pair in which exactly one side is meaningful. */
  datatype Result<+T, +E> = Ok(value: T) | Err(error: E)
}
