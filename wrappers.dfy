/** Optional values, success/failure results and the errors the estimators and
    processes can raise. */
module Wrappers {

  /** A value that may be absent (Python's `None`). */
  datatype Option<T> = None | Some(value: T)

  /** The exceptions the modelled code raises. */
  datatype Error =
    | Uninitialized       // `EWMA.get` with no value held (a ValueError)
    | PopFromEmptyDeque   // `deque.popleft` on an empty deque (an IndexError)
    | ReshapeMismatch     // `ndarray.reshape` to a shape of another size (a ValueError)

  /** The outcome of a call that returns a value or raises. */
  datatype Result<T> = Ok(value: T) | Err(error: Error)

  /** The outcome of a call that returns nothing or raises. */
  datatype Outcome = Pass | Fail(error: Error)
}
