/** A PHP value that may be null, as an explicit option. */
module Wrappers {

  datatype Option<+T> = None | Some(value: T)
}
