/** The optional value used wherever the source has `undefined`, `null`, a
    failed regex match or a thrown exception standing for "no value". */
module Wrappers {

  datatype Option<+T> = None | Some(value: T)
}
