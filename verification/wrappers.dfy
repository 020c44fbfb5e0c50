/** Optional values and success/failure results, used for the source's nullable
    values and for network outcomes, which the model takes as inputs. */
module Wrappers {

  datatype Option<+T> = None | Some(value: T)

  /** The settled outcome of one awaited request: the unwrapped value, or the
      rejection the view catches. */
  datatype Result<+R, +E> = Success(value: R) | Failure(error: E)
}
