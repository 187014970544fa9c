/** Small shared wrappers shared by every module of the model. */
module Wrappers {

  /** A value that may be absent (Rust's Option, a JavaScript `undefined`/`null`). */
  datatype Option<+T> = None | Some(value: T) {
    function GetOr(default: T): T {
      match this
      case Some(v) => v
      case None => default
    }
  }

  /** The outcome of an operation that returns no value: Rust's `Result<(), E>`. */
  datatype Outcome<+E> = Pass | Fail(error: E)

  /** The outcome of an operation that returns a value or throws: a resolver
      that either returns its record or throws an `Error`. */
  datatype Result<+T, +E> = Ok(value: T) | Err(error: E)

  /** The outcome of a call to a remote service (an HTTP or GraphQL request):
      either the reply or the message of the transport error. */
  datatype Remote<+T> = Reply(value: T) | Failure(message: string)
}
