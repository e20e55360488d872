/** Optional values: `undefined` results of lookups in the editor. */
module Wrappers {
  datatype Option<+T> = None | Some(value: T)
}
