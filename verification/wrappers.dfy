/** The optional value used for the source's `Option` fields and for runs
    whose supplied point outcomes end before the run does. */
module Wrappers {

  datatype Option<+T> = None | Some(value: T)
}
