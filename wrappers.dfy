/** Optional values, used wherever the page keeps or returns "maybe nothing". */
module Wrappers {

  datatype Option<+T> = None | Some(value: T)
}
