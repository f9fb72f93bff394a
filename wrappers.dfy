/** An optional value: a JavaScript property or reference that may be
    undefined or null. */
module Wrappers {

  datatype Option<+T> = None | Some(value: T)
}
