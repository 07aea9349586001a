/** Stock optional value, used for lookups that the index collaborator may fail to answer. */
module Wrappers {
  datatype Option<+T> = None | Some(value: T)
}
