// Bytes, and strings as JavaScript has them: sequences of UTF-16 code units.
module Text {
  type Byte = b: int | 0 <= b < 0x100 witness 0
  type Unit = c: int | 0 <= c < 0x1_0000 witness 0
}
