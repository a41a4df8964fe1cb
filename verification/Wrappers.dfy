/** The two result shapes the models share. */
module Wrappers {
  datatype Option<+T> = None | Some(value: T)
}
