/** The optional value used throughout the model where the source has a
    nullable or possibly-NaN value. */
module Wrappers {

  datatype Option<+T> = None | Some(value: T)

}
