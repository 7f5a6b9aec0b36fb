/** The result types shared by the whole model. */
module Wrappers {

  datatype Option<+T> = None | Some(value: T)

  /** The value of a call that either returns `value` or throws `error`. */
  datatype Result<+T, +E> = Success(value: T) | Failure(error: E)

  /** The settled state of a promise of nothing: resolved, or rejected with `error`. */
  datatype Outcome<+E> = Pass | Fail(error: E)
}
