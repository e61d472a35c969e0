/** JavaScript's `undefined` for an argument or field that may be absent. */
module Wrappers {

  datatype Option<+T> = None | Some(value: T)
}
