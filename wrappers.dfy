/** The optional-value type used for missing or failed inputs throughout the model. */
module Wrappers {

  datatype Option<+T> = None | Some(value: T)
}
