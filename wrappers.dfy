/** Optional values, used for "the line that matched, if any". */
module Wrappers {

  datatype Option<+T> = None | Some(value: T)
}
