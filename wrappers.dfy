/** Optional values: an absent reference, or a sentinel that no input equals. */
module Wrappers {
  datatype Option<+T> = None | Some(value: T)
}
