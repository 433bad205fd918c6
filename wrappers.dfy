/** The optional value used wherever JavaScript code reads something that may be absent. */
module Wrappers {

  datatype Option<+T> = None | Some(value: T)
}
