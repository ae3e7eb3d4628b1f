/** Optional values, standing for the source's `undefined`/`null`. */
module Wrappers {

  datatype Option<+T> = None | Some(value: T)
}
