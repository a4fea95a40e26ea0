/** Failure-carrying result types shared by the prompt builder, the
    generation client and the request handlers. */
module Wrappers {

  /** A value that may be absent: a JSON field that was not sent. */
  datatype Option<+T> = None | Some(value: T)

  /** Either a computed value or the reason it could not be computed. */
  datatype Result<+T, +E> = Ok(value: T) | Err(error: E)
}
