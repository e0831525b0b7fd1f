/** Option and Result shapes for the Go idioms the router relies on:
    a value-or-nothing, and a value-or-error pair `(T, error)`. */
module Results {

  /** A value that may be absent, e.g. the outcome of decoding a request body. */
  datatype Option<+T> = None | Some(value: T)

  /** Go's `(T, error)` return: either the error (its message) or the value. */
  datatype Result<+T> = Failure(message: string) | Success(value: T)
}
