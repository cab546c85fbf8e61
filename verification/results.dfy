/** Option and Result wrappers shared by the other modules. */
module Results {

  /** A value that may be absent (Python's `None`, or "no border chosen"). */
  datatype Option<+T> = None | Some(value: T)

  /** Either a computed value or the exception the source would raise. */
  datatype Result<+T, +E> = Ok(value: T) | Err(error: E)
}
