/** Optional values and results, standing in for TypeScript's `undefined`/`null`
    and for a promise that either resolves or rejects. */
module Wrappers {

  datatype Option<+T> = None | Some(value: T)

  datatype Result<+R, +E> = Success(value: R) | Failure(error: E)
}
