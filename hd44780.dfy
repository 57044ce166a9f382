/** The receiving side of the HD44780 in 4-bit mode: a reference model that the drivers' bus traces are checked against.
    The controller samples its RS line and data lines D4-D7 on each falling edge of Enable, and builds one
    8-bit instruction or character out of two such samples, high nibble first. */
module Hd44780 {
  import opened Bytes

  /** One falling edge of Enable as the controller sees it: the RS level and the byte on the data lines,
      of which only bits 4-7 are wired. */
  datatype Strobe = Strobe(rs: bool, nibble: u8)

  /** One byte delivered to the controller: a command (rs false) or a character/CGRAM row (rs true). */
  datatype Received = Received(rs: bool, value: u8)

  /** The byte the controller assembles from a high-nibble strobe followed by a low-nibble strobe. */
  function Combine(high: Strobe, low: Strobe): Received
  {
    Received(high.rs, (high.nibble & 0xF0) | ((low.nibble & 0xF0) >> 4))
  }

  /** Pairs up strobes, in order, into delivered bytes; a trailing unpaired strobe delivers nothing yet. */
  function Reassemble(s: seq<Strobe>): seq<Received>
    decreases |s|
  {
    if |s| < 2 then [] else [Combine(s[0], s[1])] + Reassemble(s[2..])
  }

  /** Appending one more pair of strobes to an even-length sequence appends exactly one delivered byte. */
  lemma {:induction false} ReassembleSnoc(s: seq<Strobe>, high: Strobe, low: Strobe)
    requires |s| % 2 == 0
    ensures Reassemble(s + [high, low]) == Reassemble(s) + [Combine(high, low)]
  {
    if s == [] {
      assert [high, low][2..] == [];
    } else {
      assert (s + [high, low])[2..] == s[2..] + [high, low];
      ReassembleSnoc(s[2..], high, low);
    }
  }

  /** Splitting a byte into its high nibble and its low nibble moved up, the way both drivers do,
      and combining the two strobes gives the byte back. */
  lemma NibblesRecombine(rs: bool, d: u8)
    ensures Combine(Strobe(rs, d & 0xF0), Strobe(rs, (d << 4) & 0xF0)) == Received(rs, d)
  {
  }
}
