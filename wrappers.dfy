/** The optional value used where the source gets `None` or would raise. */
module Wrappers {

  datatype Option<T> = None | Some(value: T)
}
