/** Optional values: a JSON field or argument that may be `undefined`/`null`. */
module Wrappers {

  datatype Option<+T> = None | Some(value: T)
}
