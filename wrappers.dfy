/** Optional values: a null QDateTime, an invalid QUrl and an absent JSON key are `None`. */
module Wrappers {
  datatype Option<+T> = None | Some(value: T)
}
