/** The optional-value type shared by the other modules. */
module Wrappers {

  /** A value that may be absent (Go's nil interface / missing map key). */
  datatype Option<+T> = None | Some(value: T)
}
