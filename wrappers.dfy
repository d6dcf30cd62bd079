/** Optional values and results with an error, used for values that JavaScript
    represents as NaN or `undefined` and for operations that raise. */
module Wrappers {

  datatype Option<+T> = None | Some(value: T)

  datatype Result<+T, +E> = Success(value: T) | Failure(error: E)

  function Abs(x: int): nat
  {
    if x < 0 then -x else x
  }
}
