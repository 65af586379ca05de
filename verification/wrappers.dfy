/** The optional-value datatype used for lookups, request bodies and error descriptions. */
module Wrappers {

  datatype Option<+T> = None | Some(value: T)
}
