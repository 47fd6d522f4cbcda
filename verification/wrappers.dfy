/** The optional-value datatype used for the canvas's selection and the
    module's optional placement fields. */
module Wrappers {

  datatype Option<+T> = None | Some(value: T)
}
