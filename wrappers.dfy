/** Small helper types shared by the other modules. */
module Wrappers {

  /** A value that may be absent (a Go nil story reference, a missing decode result). */
  datatype Option<+T> = None | Some(value: T)
}
