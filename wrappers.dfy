/** The optional-value datatype used for oracle answers that can be absent. */
module Wrappers {

  datatype Option<+T> = None | Some(value: T)
}
