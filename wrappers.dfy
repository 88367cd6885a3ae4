/** Optional values, used for "no match" and for "no error". */
module Wrappers {

  datatype Option<+T> = None | Some(value: T)
}
