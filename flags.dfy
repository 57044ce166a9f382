/** The configuration flags of `fast_config`: one datatype per `#[repr(u8)]` enum, whose `Value` is the
    variant's discriminant, and the `FastConfig` record that bundles them. */
module Flags {
  import opened Bytes

  /** Entry mode, bit 1: move the cursor right (increment) or left after each character. */
  datatype ShiftConfig = Increment | Decrement {
    function Value(): u8 { if Increment? then 0x02 else 0 }
  }

  /** Entry mode, bit 0: shift the whole display with each character. */
  datatype ShiftState = On | Off {
    function Value(): u8 { if On? then 0x01 else 0 }
  }

  /** Display control, bit 2: display on. */
  datatype Display = On | Off {
    function Value(): u8 { if On? then 0x04 else 0 }
  }

  /** Display control, bit 1: cursor shown. */
  datatype Cursor = On | Off {
    function Value(): u8 { if On? then 0x02 else 0 }
  }

  /** Display control, bit 0: cursor blinks. */
  datatype Blink = On | Off {
    function Value(): u8 { if On? then 0x01 else 0 }
  }

  /** Cursor/display shift, bit 3: shift the display rather than the cursor. */
  datatype ShiftMode = ShiftCursor | ShiftDisplay {
    function Value(): u8 { if ShiftDisplay? then 0x08 else 0 }
  }

  /** Cursor/display shift, bit 2: shift to the right. */
  datatype ShiftDirection = Left | Right {
    function Value(): u8 { if Right? then 0x04 else 0 }
  }

  /** Function set, bit 4: the only bus width offered is four bits, encoded as 0. */
  datatype Bits = Four {
    function Value(): u8 { 0 }
  }

  /** Function set, bit 3: two display lines. */
  datatype DisplayLines = One | Two {
    function Value(): u8 { if Two? then 0x08 else 0 }
  }

  /** Function set, bit 2: 5x10 dot characters. */
  datatype CharSize = C5X10 | C5X8 {
    function Value(): u8 { if C5X10? then 0x04 else 0 }
  }

  /** `FastConfig`: the flags of the entry mode, display control and function set instructions,
      plus a cursor/display shift setting (`write_config`). */
  datatype FastConfig = FastConfig(
    entryMode: (ShiftConfig, ShiftState),
    display: (Display, Cursor, Blink),
    displayConfig: (Bits, DisplayLines, CharSize),
    writeConfig: (ShiftMode, ShiftDirection))

  /** `DEFALT_CONFIG` in the source: decrement without display shift; display, cursor and blink on;
      four bits, two lines, 5x8 dots; shift the cursor to the left. */
  const DefaultConfig: FastConfig := FastConfig(
    (Decrement, ShiftState.Off),
    (Display.On, Cursor.On, Blink.On),
    (Four, Two, C5X8),
    (ShiftCursor, Left))

  /** The two entry mode flags occupy disjoint bits (1 and 0). */
  lemma EntryModeFlagsDisjoint(a: ShiftConfig, b: ShiftState)
    ensures a.Value() & b.Value() == 0
    ensures a.Value() & 0xFD == 0 && b.Value() & 0xFE == 0
  {
  }

  /** The three display control flags occupy disjoint bits (2, 1 and 0). */
  lemma DisplayFlagsDisjoint(d: Display, c: Cursor, b: Blink)
    ensures d.Value() & c.Value() == 0 && d.Value() & b.Value() == 0 && c.Value() & b.Value() == 0
    ensures d.Value() & 0xFB == 0 && c.Value() & 0xFD == 0 && b.Value() & 0xFE == 0
  {
  }

  /** The shift-mode flag (bit 3) and the shift-direction flag (bit 2) are disjoint. */
  lemma ShiftFlagsDisjoint(m: ShiftMode, d: ShiftDirection)
    ensures m.Value() & d.Value() == 0
    ensures m.Value() & 0xF7 == 0 && d.Value() & 0xFB == 0
  {
  }

  /** The function set flags occupy disjoint bits: lines bit 3, character size bit 2, and `Four` is 0. */
  lemma FunctionFlagsDisjoint(w: Bits, l: DisplayLines, s: CharSize)
    ensures w.Value() == 0
    ensures l.Value() & s.Value() == 0
    ensures l.Value() & 0xF7 == 0 && s.Value() & 0xFB == 0
  {
  }

  /** Every "off" or default variant has discriminant 0. */
  lemma DefaultVariantsAreZero()
    ensures Decrement.Value() == 0 && ShiftState.Off.Value() == 0
    ensures Display.Off.Value() == 0 && Cursor.Off.Value() == 0 && Blink.Off.Value() == 0
    ensures ShiftCursor.Value() == 0 && Left.Value() == 0
    ensures Four.Value() == 0 && One.Value() == 0 && C5X8.Value() == 0
  {
  }
}
