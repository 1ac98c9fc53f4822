/** The ways a step of a request can end: the handlers tell apart an
    `urllib.error.HTTPError`, which carries the remote status code, from every
    other exception. */
module Outcomes {

  /** An exception raised inside a handler's `try` block. */
  datatype Fault = HttpError(code: int) | OtherError

  /** The result of a step that may raise. */
  datatype Result<T> = Ok(value: T) | Err(fault: Fault)

  datatype Option<T> = None | Some(value: T)
}
