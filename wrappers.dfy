/** The optional value used wherever pandas answers with NaN, NaT or Python's None. */
module Wrappers {

  datatype Option<+T> = None | Some(value: T)

}
