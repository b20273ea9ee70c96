/** The optional value used for absent request fields and nullable references. */
module Wrappers {

  datatype Option<+T> = None | Some(value: T)

}
