/** Optional values and success/failure results, standing in for `undefined`/`null`
    and for thrown errors. */
module Outcomes {

  datatype Option<+T> = None | Some(value: T)

  datatype Result<+T, +E> = Success(value: T) | Failure(error: E)
}
