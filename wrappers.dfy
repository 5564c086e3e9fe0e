/** Option and Result: Java's nullable references and thrown exceptions, made explicit. */
module Wrappers {

  /** A Java reference that may be null. */
  datatype Option<+T> = None | Some(value: T)

  /** The outcome of an operation that either returns a value or fails with an error
      (a thrown exception or a failed future). */
  datatype Result<+R, +E> = Ok(value: R) | Err(error: E)
}
