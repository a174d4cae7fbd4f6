/** The optional-value datatype shared by the encoder and the socket session. */
module Wrappers {

  /** A value that may be absent (TypeScript's `undefined` / `null`). */
  datatype Option<+T> = None | Some(value: T)
}
