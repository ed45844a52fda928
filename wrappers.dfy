/** The optional-value datatype used throughout the model, and Python's truthiness of an optional string. */
module Wrappers {

  datatype Option<+T> = None | Some(value: T)

  /** Python's `bool(x)` for a value that is either None or a string: None and "" are falsy. */
  predicate Truthy(s: Option<string>) {
    s.Some? && s.value != ""
  }
}
