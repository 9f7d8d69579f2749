/** Failure-carrying values used by the model: an optional value, and the
    outcome of a call that either returns a value or raises an error. */
module Results {

  datatype Option<+T> = None | Some(value: T)

  /** A Python call that returns `value` or raises `error`. */
  datatype Result<+T, +E> = Success(value: T) | Failure(error: E)
}
