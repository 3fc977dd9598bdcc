/** Optional values: `undefined`/`null` results of the source become `None`. */
module Wrappers {

  datatype Option<+T> = None | Some(value: T)
}
