/** Optional values and error-or-value results shared by the other modules. */
module Results {

  /** A value that may be absent. */
  datatype Option<+T> = None | Some(value: T)

  /** Either a computed value or the error the handler would raise instead. */
  datatype Result<+T, +E> = Ok(value: T) | Err(error: E)
}
