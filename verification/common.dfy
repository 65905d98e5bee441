/** Failure-carrying wrappers shared by the whole model. */
module Common {

  /** A value that may be absent: Java's null / Optional, TypeScript's `null` or `undefined`. */
  datatype Option<+T> = None | Some(value: T)

  /** The outcome of a call that either returns a value or throws. */
  datatype Result<+T, +E> = Success(value: T) | Failure(error: E)

  /** A value-less outcome of an awaited call: it resolved, or it rejected with a message. */
  datatype Outcome = Resolved | Rejected(message: string)
}
