/** The instruction opcodes of the trait-based driver (`Commands`). Each is an HD44780 instruction byte:
    Clear Display, Return Home, Cursor/Display Shift, and Set DDRAM Address for the start of lines 1 and 2. */
module Commands {
  import opened Bytes

  /** The source spells the shift variants `ShiftCursot…`. */
  datatype Command =
    | Clear
    | Reset
    | ShiftCursorLeft
    | ShiftCursorRight
    | ShiftDisplayLeft
    | ShiftDisplayRight
    | MoveLine1
    | MoveLine2
  {
    /** The `#[repr(u8)]` discriminant, i.e. the byte `x as u8` sends. */
    function Opcode(): u8
    {
      match this
      case Clear => 0x01
      case Reset => 0x02
      case ShiftCursorLeft => 0x10
      case ShiftCursorRight => 0x14
      case ShiftDisplayLeft => 0x18
      case ShiftDisplayRight => 0x1C
      case MoveLine1 => 0x80
      case MoveLine2 => 0xC0
    }

    predicate IsShift()
    {
      ShiftCursorLeft? || ShiftCursorRight? || ShiftDisplayLeft? || ShiftDisplayRight?
    }
  }

  /** Distinct commands have distinct opcodes, so an opcode identifies its command. */
  lemma OpcodesDistinct(a: Command, b: Command)
    ensures a.Opcode() == b.Opcode() <==> a == b
  {
  }

  /** Clear Display is 0x01 and Return Home (`Reset`) is 0x02. */
  lemma ClearAndReturnHome()
    ensures Clear.Opcode() == 0x01 && Reset.Opcode() == 0x02
  {
  }

  /** The four shift opcodes are the Cursor/Display Shift instruction 0x10 with the display bit (0x08) set for
      the display variants and the right bit (0x04) set for the right variants; their two low bits are clear. */
  lemma ShiftOpcodeLayout(c: Command)
    requires c.IsShift()
    ensures c.Opcode() == 0x10 | (if c.ShiftDisplayLeft? || c.ShiftDisplayRight? then 0x08 else 0)
                               | (if c.ShiftCursorRight? || c.ShiftDisplayRight? then 0x04 else 0)
    ensures c.Opcode() & 0x03 == 0 && c.Opcode() & 0xE0 == 0
  {
  }

  /** The shift opcodes are exactly 0x10, 0x14, 0x18 and 0x1C. */
  lemma ShiftOpcodesExactly(b: u8)
    ensures (exists c: Command :: c.IsShift() && c.Opcode() == b) <==> b in {0x10, 0x14, 0x18, 0x1C}
  {
    if b == 0x10 { assert ShiftCursorLeft.Opcode() == b; }
    if b == 0x14 { assert ShiftCursorRight.Opcode() == b; }
    if b == 0x18 { assert ShiftDisplayLeft.Opcode() == b; }
    if b == 0x1C { assert ShiftDisplayRight.Opcode() == b; }
  }

  /** Both line-start opcodes are Set DDRAM Address instructions (bit 7 set) and they are 0x40 apart. */
  lemma LineOpcodes()
    ensures MoveLine1.Opcode() == 0x80 && MoveLine2.Opcode() == 0xC0
    ensures MoveLine1.Opcode() & 0x80 != 0 && MoveLine2.Opcode() & 0x80 != 0
    ensures MoveLine2.Opcode() as int - MoveLine1.Opcode() as int == 0x40
  {
  }
}
