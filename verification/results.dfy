/** Absent values and failures.

    `Option` is the model of a Python property that returns `None` when it has
    no data; `Result` is the model of a property that raises instead. */
module Results {

  /** A value that may be absent (Python's `None`). */
  datatype Option<T> = None | Some(value: T)

  /** Either a value or the error the Python code raises instead. */
  datatype Result<T, E> = Success(value: T) | Failure(error: E)
}
