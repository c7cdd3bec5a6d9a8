/** Option, used where the source returns a nullable pointer or a "not found" marker. */
module Wrappers {
  datatype Option<+T> = None | Some(value: T)
}
