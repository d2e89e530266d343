/** The optional value used where a decoding may find nothing. */
module Wrappers {

  datatype Option<+T> = None | Some(value: T)
}
