/** Small shared vocabulary: octets, optional values and results. */
module Basics {

  /** One octet of an HTTP body or of an encoded string. */
  type byte = x: int | 0 <= x < 256

  datatype Option<+T> = None | Some(value: T)

  datatype Result<+T, +E> = Success(value: T) | Failure(error: E)
}
