/** Optional values and results, standing for Swift's `T?` and `throws`. */
module Wrappers {

  /** Swift's `Optional<T>`: `nil` or a wrapped value. */
  datatype Option<+T> = None | Some(value: T)

  /** The outcome of a throwing Swift call: a returned value or a thrown error. */
  datatype Result<+T, +E> = Success(value: T) | Failure(error: E)
}
