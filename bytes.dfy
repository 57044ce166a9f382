/** Byte arithmetic shared by every part of the driver. */
module Bytes {

  /** Rust's `u8`. As with `<<` on `u8`, a left shift of a `bv8` drops the bits pushed out. */
  type u8 = bv8

  /** `c as u8` on a Rust `char`: the low eight bits of the character's scalar value. */
  function CharByte(c: char): u8
  {
    (c as int % 256) as u8
  }
}
