/** Option and Result, the two failure-carrying shapes the model uses for
    JavaScript's `null` and for a call that either returns or throws. */
module Wrappers {

  datatype Option<+T> = None | Some(value: T)

  /** `Success` for a promise that resolves, `Failure` for one that rejects
      with an error message. */
  datatype Result<+R, +E> = Success(value: R) | Failure(error: E)
}
