/** The optional-value type the model uses for lookups that may fail. */
module Wrappers {

  datatype Option<+T> = None | Some(value: T)
}
