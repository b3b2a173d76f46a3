/** Optional values: a missing file, a missing form value, a failed lookup. */
module Wrappers {
  datatype Option<+T> = None | Some(value: T)
}
