/** The optional value returned by a lookup that may miss. */
module Wrappers {

  datatype Option<+T> = None | Some(value: T)

}
