/** A value that may be absent: Java's nullable reference to an immutable value. */
module Wrappers {

  datatype Option<+T> = None | Some(value: T)
}
