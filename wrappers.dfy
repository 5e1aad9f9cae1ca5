/** Optional values: a JavaScript `null`/`undefined` on the Dafny side. */
module Wrappers {

  datatype Option<+T> = None | Some(value: T)
}
