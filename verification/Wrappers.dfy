/** The optional value used wherever the sources hold a pointer that may be null or a lookup that may fail. */
module Wrappers {
  datatype Option<+T> = None | Some(value: T)
}
