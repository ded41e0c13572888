/** Outcome wrappers shared by the frontend and the backend models. */
module Results {

  /** A value that may be absent (an undefined field, a nil error). */
  datatype Option<T> = None | Some(value: T)

  /** A successful value or an error message, as Go's `(value, err)` pairs are used here. */
  datatype Result<T, E> = Ok(value: T) | Err(error: E)
}
