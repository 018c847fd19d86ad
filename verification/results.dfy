/** Outcome types for operations that return either a value or an error, as the
    tool's Go functions do with their `(value, error)` result pairs. */
module Results {

  /** An optional value: a terminal cursor error may be present or absent. */
  datatype Option<+T> = None | Some(value: T)

  /** Either a value (the Go error was nil) or an error (no value was produced). */
  datatype Result<+R, +E> = Success(value: R) | Failure(error: E)
}
