/** Option and Result, the two failure-carrying shapes the model uses for
    JavaScript's `undefined`-or-value and returned-or-thrown outcomes. */
module Wrappers {

  datatype Option<+T> = None | Some(value: T)

  /** The outcome of a JavaScript call that either returns `value` or throws `error`. */
  datatype Result<+R, +E> = Success(value: R) | Failure(error: E)
}
