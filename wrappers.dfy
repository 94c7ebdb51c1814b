/** Failure-compatible wrappers shared by the model: JavaScript's `null`/`undefined`
    becomes `None`, a thrown error becomes `Err`. */
module Wrappers {

  datatype Option<+T> = None | Some(value: T)

  datatype Result<+T, +E> = Ok(value: T) | Err(error: E) {
    predicate IsFailure() { Err? }
  }
}
