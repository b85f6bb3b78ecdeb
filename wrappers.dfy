/** The optional value used for nullable references of the source (an unset unique key). */
module Wrappers {
  datatype Option<T> = None | Some(value: T)
}
