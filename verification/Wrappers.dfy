/** Absent values: Python's `None`. */
module Wrappers {

  datatype Option<+T> = None | Some(value: T)

  /** Python's truth test of an optional string: present and not empty. */
  predicate Truthy(s: Option<string>) {
    s.Some? && s.value != ""
  }
}
