/** The optional value used for pandas' missing values (`NaN`) and for parses that may fail. */
module Wrappers {

  datatype Option<+T> = None | Some(value: T)
}
