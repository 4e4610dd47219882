/** The optional value used for the source's `undefined`. */
module Wrappers {

  datatype Option<+T> = None | Some(value: T)
}
