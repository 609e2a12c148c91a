/** Optional values, used for absent reply fields and for `NaN` results of parsing. */
module Wrappers {

  datatype Option<+T> = None | Some(value: T)
}
