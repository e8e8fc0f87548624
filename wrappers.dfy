/** Optional values: Ruby's "nil or an object". */
module Wrappers {

  datatype Option<+T> = None | Some(value: T)
}
