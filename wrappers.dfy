/** The optional value used for query parameters, payload fields and parse results. */
module Wrappers {

  datatype Option<+T> = None | Some(value: T)
}
