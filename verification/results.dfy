/** Rust's `Result<T, E>` and `Option<T>`, as the three database layers use them. */
module Results {

  /** `Ok(value)` or `Err(error)`; `()` is written for Rust's unit success value. */
  datatype Result<+T, +E> = Ok(value: T) | Err(error: E)

  datatype Option<+T> = None | Some(value: T)
}
