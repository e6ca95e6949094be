/** The Option type used by every module of the project. */
module Wrappers {
  datatype Option<+T> = None | Some(value: T)
}
