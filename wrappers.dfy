/** Option and unit-valued Result, the two failure-compatible shapes the helper uses. */
module Wrappers {

  /** An optional value, used for environment variables and event names. */
  datatype Option<+T> = None | Some(value: T)

  /** Rust's `Result<(), E>`: success carries nothing, failure carries an error. */
  datatype Result<+E> = Ok | Err(error: E)
}
