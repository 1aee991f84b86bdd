/** The optional-value wrapper used for every nullable record field. */
module Wrappers {
  /** None is an unset (null) field; Some(v) holds the stored value v. */
  datatype Option<+T> = None | Some(value: T)
}
