/** Small value wrappers shared by the other modules. */
module Util {

  /** A value that may be absent: a C reference that may be NULL. */
  datatype Option<T> = None | Some(value: T)
}
