module Optional {
  datatype Option<+T> = None | Some(value: T)

  /** A service call's outcome: a value, or the exception it throws. */
  datatype Result<+T, +E> = Ok(value: T) | Err(error: E)
}
