/** The optional value used wherever the node returns a null reference or an empty optional. */
module Wrappers {
  datatype Option<+T> = None | Some(value: T)
}
