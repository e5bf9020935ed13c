/** The optional value used for manifest lookups and for detection results. */
module Wrappers {
  datatype Option<+T> = None | Some(value: T)
}
