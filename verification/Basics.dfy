/** Bytes, byte strings and the few stock datatypes shared by the other modules. */
module Basics {

  /** One byte of a Go string. */
  newtype byte = x: int | 0 <= x < 256

  /** A Go string is a sequence of bytes. */
  type Bytes = seq<byte>

  datatype Option<+T> = None | Some(value: T)

  /** The bytes of a program text constant. */
  function Ascii(s: string): (b: Bytes)
    ensures |b| == |s|
  {
    seq(|s|, i requires 0 <= i < |s| => (s[i] as int % 256) as byte)
  }

  lemma AsciiConcat(a: string, b: string)
    ensures Ascii(a + b) == Ascii(a) + Ascii(b)
  {
  }
}
