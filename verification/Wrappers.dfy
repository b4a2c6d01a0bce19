/** The optional value that several modules share. */
module Wrappers {

  datatype Option<T> = None | Some(value: T)
}
