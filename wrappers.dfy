/** A result that may be absent: the model's stand-in for a null pointer or an empty smart pointer. */
module Wrappers {
  datatype Option<+T> = None | Some(value: T)
}
