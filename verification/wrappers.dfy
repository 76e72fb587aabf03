/** Small helper types shared by the modules of this model. */
module Wrappers {

  /** A byte string: a Node `Buffer`, a digest, or a C byte buffer. */
  type Bytes = seq<bv8>

  /** A value that may be absent: a JavaScript property that is `undefined`. */
  datatype Option<+T> = None | Some(value: T)
}
