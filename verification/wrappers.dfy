/** Optional values: stand-ins for the JavaScript `null`/`undefined` references
    the viewer checks before using them. */
module Wrappers {

  datatype Option<+T> = None | Some(value: T)
}
