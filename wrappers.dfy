/** The optional value used for a table that may be absent and for the
    positions of a derived column that pandas leaves as NaN. */
module Wrappers {

  datatype Option<+T> = None | Some(value: T)
}
