/** The optional value shared by the screens: a selection that may not have been made yet. */
module Wrappers {

  datatype Option<T> = None | Some(value: T)
}
