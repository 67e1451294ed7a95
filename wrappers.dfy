/** Option and Result values used for the Go `(value, error)` return pairs. */
module Wrappers {

  /** A Go `error`: only its message is observable to this program. */
  type Error = string

  /** A nil-able Go pointer, or an absent error. */
  datatype Option<+T> = None | Some(value: T)

  /** The outcome of one call into the cloud provider's SDK. */
  datatype Result<+T> = Ok(value: T) | Err(error: Error)
}
