/** Option, Result and Outcome: the ways a Python call returns "nothing", a value or an exception. */
module Wrappers {

  datatype Option<+T> = None | Some(value: T)

  /** A Python call that either returns `value` or raises `error`. */
  datatype Result<+T, +E> = Success(value: T) | Failure(error: E)

  /** A Python call that returns `None` or raises `error`. */
  datatype Outcome<+E> = Pass | Fail(error: E)
}
