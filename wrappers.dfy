/** Small helper datatypes shared by the other modules. */
module Wrappers {

  /** An optional value: the model's stand-in for a null pointer or llvm::Optional. */
  datatype Option<+T> = None | Some(value: T)

  /** Bytes of the input buffer and of identifiers. */
  type byte = x: int | 0 <= x < 256
}
