/** Outcome datatypes shared by every component. */
module Wrappers {

  /** A nullable column or an optional value. */
  datatype Option<+T> = None | Some(value: T)

  /** A call that returns a value or raises an error of type `E`. */
  datatype Result<+T, +E> = Success(value: T) | Failure(error: E)
}
