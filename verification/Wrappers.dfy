/** Values and errors shared by every component of the model. */
module Wrappers {

  datatype Option<+T> = None | Some(value: T)

  /** The error classes the operator tells apart (`IsNotFound`, `ErrNodeZoneLabelMissing`). */
  datatype ErrorKind = NotFound | ZoneLabelMissing | Failure

  datatype Error = Error(kind: ErrorKind, message: string)

  /** The outcome of a call that returns a value or an error. */
  datatype Reply<+T> = Got(value: T) | Err(error: Error)
}
