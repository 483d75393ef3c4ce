/** Optional values and results with an error text, as the Go code's `(T, error)` pairs. */
module Wrappers {
  datatype Option<T> = None | Some(value: T)

  datatype Result<T> = Ok(value: T) | Fail(error: string) {
    predicate IsFailure() {
      Fail?
    }
  }
}
