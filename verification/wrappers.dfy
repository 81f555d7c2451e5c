/** Optional values, used where the firmware either yields something or nothing. */
module Wrappers {

  datatype Option<+T> = None | Some(value: T)
}
