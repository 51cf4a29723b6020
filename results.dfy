/** Optional values and success-or-error results, shared by the other modules. */
module Results {

  /** A value that may be absent: Python's `None` or a present value. */
  datatype Option<+T> = None | Some(value: T)

  /** The outcome of a service operation: its value, or the business error it raised. */
  datatype Result<+T, +E> = Ok(value: T) | Err(error: E)
}
