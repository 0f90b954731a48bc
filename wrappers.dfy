/** The optional value used for the builder's current pass and for map lookups. */
module Wrappers {

  datatype Option<+T> = None | Some(value: T)
}
