/** Optional values, Python's `None` and the value it stands in for, and
    outcomes of operations that may raise. */
module Wrappers {

  datatype Option<+T> = None | Some(value: T)

  /** The value an operation returned, or `Failure` where it raised. */
  datatype Result<+T> = Success(value: T) | Failure
}
