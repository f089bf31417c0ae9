/** Optional values, for results that may be absent (a file that is missing or
    does not parse, a process handle that is not held). */
module Wrappers {

  datatype Option<+T> = None | Some(value: T)
}
