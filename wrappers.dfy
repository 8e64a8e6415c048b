/** The optional value used where the component reads a value that may be absent
    (`undefined` in the client) or performs an action only under a condition. */
module Wrappers {

  datatype Option<+T> = None | Some(value: T)
}
