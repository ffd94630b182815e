/** Types shared by the models of the two Go files. */
module Basics {

  /** An optional value: None stands for a Go call that returned a non-nil error. */
  datatype Option<+T> = None | Some(value: T)

  /** A Go byte. */
  type byte = b: int | 0 <= b < 0x100

  /** A Go string is an immutable sequence of bytes (not necessarily valid UTF-8). */
  type GoString = seq<byte>
}
