/** Optional values and results that carry an error, shared by every module. */
module Wrappers {

  datatype Option<+T> = None | Some(value: T) {
    /** SQL's COALESCE and JavaScript's `??`: this value, or the other one when it is absent. */
    function Or(other: Option<T>): Option<T> {
      if None? then other else this
    }
  }

  datatype Result<+T, +E> = Success(value: T) | Failure(error: E)
}
