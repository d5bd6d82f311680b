/** Failure-carrying values: the model's stand-in for Python's `None` and for
    raised `RuntimeError`s. */
module Results {

  /** A value that may be absent (Python's `Optional[...]`). */
  datatype Option<+T> = None | Some(value: T)

  /** Either a computed value or the error that was raised instead. */
  datatype Result<+T, +E> = Success(value: T) | Failure(error: E)
}
