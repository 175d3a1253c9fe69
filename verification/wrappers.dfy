/** Optional values: `None` stands for a JSON `null` or an absent field. */
module Wrappers {
  datatype Option<+T> = None | Some(value: T)
}
