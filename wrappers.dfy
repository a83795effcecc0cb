/** Optional values, used for the outcome of parsing a text field as a number. */
module Wrappers {

  /** `None` is a field whose text does not parse as a number; `Some(x)` one that parses to x. */
  datatype Option<+T> = None | Some(value: T)
}
