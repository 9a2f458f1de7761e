/** The optional-value type used for parse results and optional message fields. */
module Wrappers {
  datatype Option<+T> = None | Some(value: T)
}
