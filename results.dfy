/** The two failure-compatible shapes the model uses: a value that may be
    absent (Python's None) and an outcome that may be an exception. */
module Results {

  datatype Option<+T> = None | Some(value: T)

  datatype Result<+R, +E> = Success(value: R) | Failure(error: E)
}
