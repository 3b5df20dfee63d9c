/** The optional value used wherever the Kotlin source has a nullable value or an exception. */
module Wrappers {

  datatype Option<+T> = None | Some(value: T)
}
