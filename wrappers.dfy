/** Option and Result types used where the conformance suite returns a null pointer,
    a "not found" value or throws an exception. */
module Wrappers {

  datatype Option<+T> = None | Some(value: T)

  /** `Err` stands for an exception (or an error result code) of the conformance suite. */
  datatype Result<+T, +E> = Ok(value: T) | Err(error: E)
}
