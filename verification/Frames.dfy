/** What the recording pipeline carries. */
module Frames {
  newtype byte = x: int | 0 <= x < 0x100

  /** An image as the recorder sees it: its pixel bytes, and the stamp it was taken at in
      nanoseconds.  The recorder itself ignores the stamp. */
  datatype Frame = Frame(stamp: int, pixels: seq<byte>)
}
