/** The instruction layer of the `LiquidCrystal` trait: what its default methods `write`, `set_cursor`,
    `custom_char` and `fast_config` pass, in order, to the implementor's `send(data, rs_state)`.
    Each operation is given here as the sequence of `send` calls it makes; the drivers' methods
    are proved to issue exactly these. */
module LcdTrait {
  import opened Bytes
  import opened Commands
  import Flags
  import Interfaces

  /** One call `send(data, rs_state)`: rs 0x00 addresses the instruction register, RS (0x01) data. */
  datatype Instr = Instr(data: u8, rs: u8)

  /** `SendType`: what `write` accepts. */
  datatype SendType = Command(cmd: Command) | Text(text: string) | CustomChar(slot: u8)

  function CommandInstr(b: u8): Instr { Instr(b, 0x00) }

  function DataInstr(b: u8): Instr { Instr(b, Interfaces.RS) }

  predicate IsCommand(i: Instr) { i.rs == 0x00 }

  /** One data send per byte, in order. */
  function DataInstrs(bytes: seq<u8>): (r: seq<Instr>)
    ensures |r| == |bytes|
    ensures forall k :: 0 <= k < |bytes| ==> r[k] == DataInstr(bytes[k])
    decreases |bytes|
  {
    if bytes == [] then [] else DataInstrs(bytes[..|bytes| - 1]) + [DataInstr(bytes[|bytes| - 1])]
  }

  lemma DataInstrsSnoc(bytes: seq<u8>, b: u8)
    ensures DataInstrs(bytes + [b]) == DataInstrs(bytes) + [DataInstr(b)]
  {
    assert (bytes + [b])[..|bytes|] == bytes;
  }

  /** The bytes of a text as `text as u8` gives them, one per character. */
  function TextBytes(s: string): seq<u8>
  {
    seq(|s|, k requires 0 <= k < |s| => CharByte(s[k]))
  }

  /** The sends of `write(data)`. */
  function WriteInstrs(st: SendType): (r: seq<Instr>)
    ensures st.Command? ==> |r| == 1 && IsCommand(r[0])
    ensures st.Text? ==> |r| == |st.text|
    ensures st.CustomChar? ==> |r| <= 1
    ensures !st.Command? ==> forall k :: 0 <= k < |r| ==> r[k].rs == Interfaces.RS
  {
    match st
    case Command(c) => [CommandInstr(c.Opcode())]
    case Text(s) => DataInstrs(TextBytes(s))
    case CustomChar(slot) => if slot < 8 then [DataInstr(slot)] else []
  }

  /** `write(Command(c))` is the single command send of `c`'s opcode. */
  lemma WriteCommandInstrs(c: Command)
    ensures WriteInstrs(Command(c)) == [Instr(c.Opcode(), 0x00)]
  {
  }

  /** `write(Text(s))` is one data send per character, in order, of the character code cut to 8 bits;
      no command is interleaved. */
  lemma WriteTextInstrs(s: string)
    ensures |WriteInstrs(Text(s))| == |s|
    ensures forall k :: 0 <= k < |s| ==> WriteInstrs(Text(s))[k] == Instr(CharByte(s[k]), Interfaces.RS)
    ensures forall k :: 0 <= k < |s| ==> !IsCommand(WriteInstrs(Text(s))[k])
  {
  }

  /** `write(CustomChar(slot))` is one data send of `slot` when `slot < 8`, and nothing otherwise. */
  lemma WriteCustomCharInstrs(slot: u8)
    ensures slot < 8 ==> WriteInstrs(CustomChar(slot)) == [Instr(slot, Interfaces.RS)]
    ensures slot >= 8 ==> WriteInstrs(CustomChar(slot)) == []
  {
  }

  /** The Set DDRAM Address command of `set_cursor(line, colum)`: line 1 starts at 0x80, every other line
      number means line 2 (0xC0); the column is taken modulo 64. The sum never wraps past 0xFF. */
  function SetCursorCommand(line: u8, col: u8): (b: u8)
    ensures b as int == (if line == 1 then 0x80 else 0xC0) + (col & 0x3F) as int
    ensures b & 0x80 != 0
    ensures b & 0x3F == col & 0x3F
    ensures (b & 0x40 == 0) <==> line == 1
  {
    if line == 1 then MoveLine1.Opcode() + (0x3F & col) else MoveLine2.Opcode() + (0x3F & col)
  }

  /** The sends of `set_cursor(line, colum)`: exactly one command. */
  function SetCursorInstrs(line: u8, col: u8): (r: seq<Instr>)
    ensures |r| == 1 && IsCommand(r[0]) && r[0].data & 0x80 != 0
  {
    [CommandInstr(SetCursorCommand(line, col))]
  }

  /** The Set CGRAM Address command `0x40 | (slot << 3)`: the address of the slot's first row, 8 rows per slot. */
  function CgramAddressCommand(slot: u8): (b: u8)
    requires slot < 8
    ensures b as int == 0x40 + 8 * slot as int
    ensures 0x40 <= b <= 0x78 && b & 0x07 == 0
  {
    0x40 | (slot << 3)
  }

  /** The sends of `custom_char(char_array, slot)`. */
  function CustomCharInstrs(glyph: seq<u8>, slot: u8): (r: seq<Instr>)
    requires |glyph| == 8
    ensures |r| == (if slot < 8 then 10 else 1)
    ensures r[|r| - 1] == Instr(0x02, 0x00)
  {
    (if slot < 8 then [CommandInstr(CgramAddressCommand(slot))] + DataInstrs(glyph) else [])
    + WriteInstrs(Command(Reset))
  }

  /** With a valid slot: the CGRAM address, the 8 rows in order as data, then Return Home.
      With `slot >= 8`: only Return Home. */
  lemma CustomCharSpec(glyph: seq<u8>, slot: u8)
    requires |glyph| == 8
    ensures slot < 8 ==>
      && |CustomCharInstrs(glyph, slot)| == 10
      && CustomCharInstrs(glyph, slot)[0] == Instr(CgramAddressCommand(slot), 0x00)
      && (forall k :: 0 <= k < 8 ==> CustomCharInstrs(glyph, slot)[k + 1] == Instr(glyph[k], Interfaces.RS))
      && CustomCharInstrs(glyph, slot)[9] == Instr(0x02, 0x00)
    ensures slot >= 8 ==> CustomCharInstrs(glyph, slot) == [Instr(0x02, 0x00)]
  {
  }

  /** Entry Mode Set: 0x04 with the increment and display-shift flags. */
  function EntryModeByte(cfg: Flags.FastConfig): (b: u8)
    ensures 0x04 <= b <= 0x07
  {
    0x04 | cfg.entryMode.0.Value() | cfg.entryMode.1.Value()
  }

  /** Display On/Off Control: 0x08 with the display, cursor and blink flags. */
  function DisplayControlByte(cfg: Flags.FastConfig): (b: u8)
    ensures 0x08 <= b <= 0x0F
  {
    0x08 | cfg.display.0.Value() | cfg.display.1.Value() | cfg.display.2.Value()
  }

  /** Function Set: 0x20 with the bus width, line count and character size flags. */
  function FunctionSetByte(cfg: Flags.FastConfig): (b: u8)
    ensures 0x20 <= b <= 0x2C && b & 0x13 == 0
  {
    0x20 | cfg.displayConfig.0.Value() | cfg.displayConfig.1.Value() | cfg.displayConfig.2.Value()
  }

  /** The sends of `fast_config(config)`. */
  function FastConfigInstrs(cfg: Flags.FastConfig): (r: seq<Instr>)
    ensures |r| == 5 && forall k :: 0 <= k < 5 ==> IsCommand(r[k])
  {
    [CommandInstr(EntryModeByte(cfg)), CommandInstr(DisplayControlByte(cfg)), CommandInstr(FunctionSetByte(cfg))]
    + WriteInstrs(Command(Clear)) + WriteInstrs(Command(Reset))
  }

  /** `fast_config` makes exactly five command sends: entry mode, display control, function set, Clear,
      Return Home; the `write_config` field plays no part. */
  lemma FastConfigSpec(cfg: Flags.FastConfig, w: (Flags.ShiftMode, Flags.ShiftDirection))
    ensures FastConfigInstrs(cfg) == [Instr(EntryModeByte(cfg), 0), Instr(DisplayControlByte(cfg), 0),
                                      Instr(FunctionSetByte(cfg), 0), Instr(0x01, 0), Instr(0x02, 0)]
    ensures FastConfigInstrs(cfg) == FastConfigInstrs(cfg.(writeConfig := w))
  {
  }

  /** Each configuration byte is its instruction's opcode bit plus the flags, and the flags can be read back:
      distinct flag settings give distinct bytes. */
  lemma ConfigBytesDecode(cfg: Flags.FastConfig)
    ensures EntryModeByte(cfg) & 0xFC == 0x04
    ensures (EntryModeByte(cfg) & 0x02 != 0) <==> cfg.entryMode.0.Increment?
    ensures (EntryModeByte(cfg) & 0x01 != 0) <==> cfg.entryMode.1.On?
    ensures DisplayControlByte(cfg) & 0xF8 == 0x08
    ensures (DisplayControlByte(cfg) & 0x04 != 0) <==> cfg.display.0.On?
    ensures (DisplayControlByte(cfg) & 0x02 != 0) <==> cfg.display.1.On?
    ensures (DisplayControlByte(cfg) & 0x01 != 0) <==> cfg.display.2.On?
    ensures FunctionSetByte(cfg) & 0xF3 == 0x20
    ensures (FunctionSetByte(cfg) & 0x08 != 0) <==> cfg.displayConfig.1.Two?
    ensures (FunctionSetByte(cfg) & 0x04 != 0) <==> cfg.displayConfig.2.C5X10?
  {
  }

  /** The three configuration bytes determine the entry mode, display and function set flags. */
  lemma ConfigBytesInjective(a: Flags.FastConfig, b: Flags.FastConfig)
    requires EntryModeByte(a) == EntryModeByte(b)
    requires DisplayControlByte(a) == DisplayControlByte(b)
    requires FunctionSetByte(a) == FunctionSetByte(b)
    ensures a.entryMode == b.entryMode && a.display == b.display && a.displayConfig == b.displayConfig
  {
    ConfigBytesDecode(a);
    ConfigBytesDecode(b);
    assert a.displayConfig.0 == Flags.Four == b.displayConfig.0;
  }

  /** The default configuration is sent as 0x04, 0x0F, 0x28. */
  lemma DefaultConfigBytes()
    ensures EntryModeByte(Flags.DefaultConfig) == 0x04
    ensures DisplayControlByte(Flags.DefaultConfig) == 0x0F
    ensures FunctionSetByte(Flags.DefaultConfig) == 0x28
  {
  }
}
