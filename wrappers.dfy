/** The absent-or-present values of the tracker (JavaScript's `null`/`undefined` versus a value). */
module Wrappers {

  datatype Option<+T> = None | Some(value: T)
}
