/** The optional value the modelled code uses for absent keys, unloaded caches and tombstones. */
module Wrappers {
  datatype Option<+T> = None | Some(value: T)
}
