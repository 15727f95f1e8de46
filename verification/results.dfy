/** Option and Result, the failure-carrying values every instruction of the model returns. */
module Results {

  /** A value that may be absent (Rust's `Option`). */
  datatype Option<+T> = None | Some(value: T)

  /** The outcome of an instruction: the new state, or the reason the whole transaction aborts. */
  datatype Result<+T, +E> = Ok(value: T) | Err(error: E)
}
