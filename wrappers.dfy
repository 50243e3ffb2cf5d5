/** Small helper type used across the model. */
module Wrappers {

  /** A value that may be absent: a failed host call, a missing dot, an untouched setter. */
  datatype Option<+T> = None | Some(value: T)
}
