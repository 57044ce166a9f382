/** `Layout<COLS, LINES>`: the column count of a module and the DDRAM address of the first column of each line.
    The array type `[u8; LINES]` fixes the number of addresses, which the subset type below keeps. */
module Layouts {
  import opened Bytes

  datatype LayoutShape = LayoutShape(cols: u8, lines: nat, addrs: seq<u8>)

  type Layout = l: LayoutShape | |l.addrs| == l.lines witness LayoutShape(0, 0, [])

  /** `LCD16X2`: 16 columns, lines starting at 0x80 and 0xC0 (Set DDRAM Address with bit 7 folded in). */
  const LCD16X2: Layout := LayoutShape(16, 2, [0x80, 0xC0])

  /** `LCD20X4`: 20 columns; lines 3 and 4 continue lines 1 and 2 in DDRAM. */
  const LCD20X4: Layout := LayoutShape(20, 4, [0x80, 0xC0, 0x80 + 20, 0xC0 + 20])

  /** Every base address is a Set DDRAM Address command, and no column of any line overflows a byte. */
  ghost predicate WellFormed(l: Layout)
  {
    && (forall k :: 0 <= k < l.lines ==> l.addrs[k] & 0x80 != 0)
    // the last column `addrs[k] + COLS - 1` is at most 0xFF
    && (forall k :: 0 <= k < l.lines ==> l.addrs[k] as int + l.cols as int <= 0x100)
  }

  /** The half-open DDRAM command range `[addrs[k], addrs[k] + COLS)` that line `k` occupies. */
  ghost predicate OnLine(l: Layout, k: nat, a: int)
    requires k < l.lines
  {
    l.addrs[k] as int <= a < l.addrs[k] as int + l.cols as int
  }

  lemma LCD16X2Shape()
    ensures LCD16X2.cols == 16 && LCD16X2.lines == 2 && LCD16X2.addrs == [0x80, 0xC0]
    ensures WellFormed(LCD16X2)
  {
  }

  lemma LCD20X4Shape()
    ensures LCD20X4.cols == 20 && LCD20X4.lines == 4 && LCD20X4.addrs == [0x80, 0xC0, 0x94, 0xD4]
    ensures WellFormed(LCD20X4)
  {
  }

  /** On the 20x4 module no address belongs to two lines; line 3 starts where line 1 ends and
      line 4 starts where line 2 ends. */
  lemma LCD20X4LinesDisjoint(j: nat, k: nat, a: int)
    requires j < 4 && k < 4 && j != k
    ensures !(OnLine(LCD20X4, j, a) && OnLine(LCD20X4, k, a))
    ensures LCD20X4.addrs[2] as int == LCD20X4.addrs[0] as int + 20
    ensures LCD20X4.addrs[3] as int == LCD20X4.addrs[1] as int + 20
  {
  }
}
