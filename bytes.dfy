/** The byte type shared by the spectrum (`Uint8Array`) and the pixel buffers (`Uint8ClampedArray`). */
module Bytes {

  /** One unsigned 8-bit sample or colour component. */
  type Byte = b: int | 0 <= b < 256
}
