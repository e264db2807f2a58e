/** The optional value used for absent record fields and failed decodes. */
module Wrappers {
  datatype Option<+T> = None | Some(value: T)
}
