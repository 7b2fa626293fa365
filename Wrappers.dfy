/** Option type shared by the parsing functions of the model. */
module Wrappers {

  /** None stands for a Java call that throws instead of returning a value. */
  datatype Option<+T> = None | Some(value: T)
}
