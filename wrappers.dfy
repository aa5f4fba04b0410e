/** Small value wrappers shared by the other modules. */
module Wrappers {

  /** A value that may be absent (a nil pointer, an unset optional field,
      or a nil error). */
  datatype Option<+T> = None | Some(value: T)
}
