/** Option and Result, used for the values pandas leaves undefined (NaN) and
    for the exception that aborts a scan. */
module Wrappers {

  /** `None` stands for a NaN cell; `Some(v)` for a defined number. */
  datatype Option<+T> = None | Some(value: T)

  /** `Failure` stands for an exception that propagates to the caller. */
  datatype Result<+R, +E> = Success(value: R) | Failure(error: E)
}
