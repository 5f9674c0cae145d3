/** Optional values, used for the registry's callback slots (a NULL slot is None). */
module Wrappers {
  datatype Option<+T> = None | Some(value: T)
}
