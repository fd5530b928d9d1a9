/** Option and Result, the two failure-carrying shapes the store's operations return. */
module Wrappers {

  /** A value that may be absent; `None` stands for Go's `nil`. */
  datatype Option<+T> = None | Some(value: T)

  /** Either a value or an error, like Go's `(value, err)` pair with exactly one of them set. */
  datatype Result<+R, +E> = Success(value: R) | Failure(error: E)
}
