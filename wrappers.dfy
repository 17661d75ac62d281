/** Optional values and success-or-error results, the two shapes the gateway
    uses for Python's `None` defaults and for raised `HTTPException`s. */
module Wrappers {

  datatype Option<+T> = None | Some(value: T)

  datatype Result<+R, +E> = Success(value: R) | Failure(error: E)
}
