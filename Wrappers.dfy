/** The Option datatype used by every module of the model for "absent" values. */
module Wrappers {

  datatype Option<+T> = None | Some(value: T)
}
