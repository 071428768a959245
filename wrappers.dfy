/** Optional values, used for absent map entries, optional payload fields and
    optional regular-expression groups. */
module Wrappers {
  datatype Option<+T> = None | Some(value: T)
}
