/** Optional values, standing in for fields that may be missing from a document. */
module Wrappers {

  datatype Option<+T> = None | Some(value: T)
}
