/** The optional-value datatype the bridge model uses for absent fields and
    for the nullable block number of a resolved block. */
module Wrappers {

  datatype Option<+T> = None | Some(value: T)
}
