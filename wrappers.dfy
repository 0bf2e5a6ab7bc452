/** The optional value used for absent search results, URL parameters and navigation targets. */
module Wrappers {
  datatype Option<+T> = None | Some(value: T)
}
