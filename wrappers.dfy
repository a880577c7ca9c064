/** The optional-value datatype used for parse results. */
module Wrappers {
  datatype Option<+T> = None | Some(value: T)
}
