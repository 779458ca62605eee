/** Optional values, standing for the source's `undefined`/`null` and for calls that throw. */
module Wrappers {

  datatype Option<+T> = None | Some(value: T)
}
