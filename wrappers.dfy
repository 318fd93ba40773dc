/** The absent-or-present value used for the writer's file handles and for a
    constructor that can refuse its arguments. */
module Wrappers {

  datatype Option<+T> = None | Some(value: T)
}
