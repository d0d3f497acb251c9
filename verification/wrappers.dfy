/** Optional values and outcomes shared by the other modules: a pointer that
    may be null is an `Option`, and an operation that may `THROW` returns a
    `Result` whose `Failure` carries the thrown text. */
module Wrappers {

  datatype Option<+T> = None | Some(value: T)

  datatype Result<+R, +E> = Success(value: R) | Failure(error: E)

  /** The text of a `THROW(...)` raised by the protocol layer. */
  datatype Fault = Fault(message: string)
}
