/** The optional value used where the source has a property that may be absent or a value that may be null. */
module Wrappers {

  datatype Option<+T> = None | Some(value: T)
}
