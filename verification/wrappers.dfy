/** Option and Result types shared by every module. */
module Wrappers {

  /** An optional value: Rust's `Option`, or a TypeScript value that may be `undefined`. */
  datatype Option<+T> = None | Some(value: T)

  /** The outcome of a fallible operation: Rust's `Result<T, E>`. */
  datatype Result<+T, +E> = Success(value: T) | Failure(error: E)
}
