/** Helper datatypes shared by the model. */
module Wrappers {

  /** A value that may be absent (Python's `None` for a missing object). */
  datatype Option<+T> = None | Some(value: T)

  /** The result of an operation that returns nothing but may raise. */
  datatype Outcome<+E> = Pass | Fail(error: E)
}
