/** Machine integers, bytes and strings shared by the tutorial programs.

    Rust's fixed-width integers are modelled as ranges of the unbounded
    `int`; a Rust `String`/`&str` is its UTF-8 byte sequence. Every string
    literal of the tutorials is ASCII, so a literal is written `Ascii("...")`. */
module Primitives {

  datatype Option<T> = None | Some(value: T)

  const U8_MAX: int := 0xff
  const U32_MAX: int := 0xffff_ffff
  const U64_MAX: int := 0xffff_ffff_ffff_ffff
  const I32_MIN: int := -0x8000_0000
  const I32_MAX: int := 0x7fff_ffff

  type U8 = x: int | 0 <= x <= U8_MAX
  type U32 = x: int | 0 <= x <= U32_MAX
  type U64 = x: int | 0 <= x <= U64_MAX
  type I32 = x: int | I32_MIN <= x <= I32_MAX

  /** One byte of a UTF-8 encoded string. */
  type Byte = U8

  /** The bytes of a `String` or `&str`. */
  type Str = seq<Byte>

  /** The byte `b' '`. */
  const SPACE: Byte := 32

  predicate IsAscii(s: string) {
    forall i :: 0 <= i < |s| ==> s[i] as int < 128
  }

  /** The UTF-8 encoding of an ASCII string: one byte per character. */
  function Ascii(s: string): (b: Str)
    requires IsAscii(s)
    ensures |b| == |s|
    ensures forall i :: 0 <= i < |s| ==> b[i] == s[i] as int
  {
    seq(|s|, i requires 0 <= i < |s| => s[i] as int)
  }

  /** Encoding commutes with concatenation, so pushing a literal onto a
      string is encoding the concatenated literal. */
  lemma AsciiConcat(s: string, t: string)
    requires IsAscii(s) && IsAscii(t)
    ensures IsAscii(s + t)
    ensures Ascii(s + t) == Ascii(s) + Ascii(t)
  {
  }

  /** Encoding commutes with slicing: on ASCII text a byte index is a
      character index. */
  lemma AsciiSlice(s: string, i: nat, j: nat)
    requires IsAscii(s) && i <= j <= |s|
    ensures IsAscii(s[i..j])
    ensures Ascii(s[i..j]) == Ascii(s)[i..j]
  {
  }
}
