/** Optional values, used for "the first floor that matches, if any". */
module Wrappers {

  datatype Option<T> = None | Some(value: T)
}
