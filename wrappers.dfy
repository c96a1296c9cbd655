/** The "found or not found" result that stands in for a nullable pointer. */
module Wrappers {

  datatype Option<+T> = None | Some(value: T)
}
