/** The optional value used throughout the model: JavaScript's `undefined`,
    a missing attachment, a configuration variable that is not set. */
module Wrappers {

  datatype Option<+T> = None | Some(value: T)

}
