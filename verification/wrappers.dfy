/** Failure-carrying datatypes shared by the whole model. */
module Wrappers {

  /** A value that may be absent; also used for "the call raised" on engine results. */
  datatype Option<+T> = None | Some(value: T)

  /** The outcome of a request: a value, or the error the request fails with. */
  datatype Result<+T, +E> = Ok(value: T) | Err(error: E)
}
