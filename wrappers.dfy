/** The optional value used for the tree's nullable children and for lookups. */
module Wrappers {
  datatype Option<+T> = None | Some(value: T)
}
