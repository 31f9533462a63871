/** Optional values and results-or-errors, used for nullable columns and for
    the HTTP errors an endpoint raises. */
module Results {

  /** A value that may be absent: a nullable column or an omitted query parameter. */
  datatype Option<+T> = None | Some(value: T)

  /** Either the value an endpoint returns or the error it raises. */
  datatype Result<+R, +E> = Success(value: R) | Failure(error: E)
}
