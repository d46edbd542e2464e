/** Integer widths used throughout the emulator, the two wrapper datatypes that
    stand for Rust's Option and Result, and the byte/word helpers of util.rs.

    The byte/word helpers work on bit-vectors, exactly as the source's shifts and
    casts do; the rest of the model indexes arrays and so uses the integer
    subranges u8 and u16. */
module Util {

  type u8 = x: int | 0 <= x < 0x100
  type u16 = x: int | 0 <= x < 0x1_0000
  type i8 = x: int | -0x80 <= x < 0x80

  datatype Option<+T> = None | Some(value: T)

  datatype Result<+T, +E> = Ok(value: T) | Err(error: E)

  /** `(h as u16) << 8 | (l as u16)` */
  function MakeWord16(h: bv8, l: bv8): (w: bv16)
    ensures w >> 8 == h as bv16 && w & 0xFF == l as bv16
  {
    ((h as bv16) << 8) | (l as bv16)
  }

  /** `v as u8`: the cast keeps the low eight bits. */
  function LowByte(v: bv16): (l: bv8)
    ensures l as bv16 == v % 256
  {
    (v & 0xFF) as bv8
  }

  /** `(v >> 8) as u8` */
  function HighByte(v: bv16): (h: bv8)
    ensures h as bv16 == v / 256
  {
    (v >> 8) as bv8
  }

  lemma HighByteOfWord(h: bv8, l: bv8)
    ensures HighByte(MakeWord16(h, l)) == h
  {
  }

  lemma LowByteOfWord(h: bv8, l: bv8)
    ensures LowByte(MakeWord16(h, l)) == l
  {
  }

  /** Splitting a word and joining the halves again gives the word back. */
  lemma WordOfBytes(v: bv16)
    ensures MakeWord16(HighByte(v), LowByte(v)) == v
  {
  }

  function Pow2(i: nat): (r: nat)
    ensures r > 0
  {
    if i == 0 then 1 else 2 * Pow2(i - 1)
  }

  /** Bit i of b (bit 0 is the least significant). */
  function GetBit(b: u8, i: nat): bool
    requires i < 8
  {
    (b / Pow2(i)) % 2 == 1
  }
}
