/** Optional values, standing in for the nullable references of the host API. */
module Wrappers {

  /** `None` plays the part of a null reference or an absent lookup result. */
  datatype Option<+T> = None | Some(value: T)
}
