/** Option and Result, standing for Java's nullable references and for a
    call that either returns a value or throws. */
module Wrappers {

  /** A possibly-null Java reference: `None` is `null`. */
  datatype Option<+T> = None | Some(value: T)

  /** The outcome of a Java call that may throw instead of returning. */
  datatype Result<+T, +E> = Success(value: T) | Failure(error: E)

  /** The one exception the modelled code can raise on its own. */
  datatype JavaException = NullPointerException
}
