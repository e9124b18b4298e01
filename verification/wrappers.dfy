/** The optional value used for the source's optional fields and nullable references. */
module Wrappers {

  datatype Option<+T> = None | Some(value: T)
}
