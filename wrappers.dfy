/** The optional value used for Go's nil maps and pointers. */
module Wrappers {

  datatype Option<+T> = None | Some(value: T)
}
