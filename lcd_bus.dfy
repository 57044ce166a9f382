/** `LiquidCrystal4Bits`, the 4-bit bus framer, and `LiquidCrystal8Bits`. The framer sends each byte as two
    nibble transactions; a transaction puts the nibble on the data lines three times, with the selected
    enable lines high, low, then high again, and waits 5 µs after the second and third writes.
    The trait's default methods run on top of the framer's `send`.
    The lemmas at the end show what the controller receives from such a trace. */
module LcdBus {
  import opened Bytes
  import opened Interfaces
  import opened LcdTrait
  import opened Hd44780
  import opened Seqs
  import Commands
  import Flags

  // ---------------------------------------------------------------- the framer's traces

  /** The calls of `send4bits(data, rs_state)` with enable selector `ce`. */
  function Send4BitsEvents(ce: u8, data: u8, rs: u8): (t: seq<Event>)
    ensures |t| == 5 && t[2] == Delay(5) && t[4] == Delay(5)
    ensures t[0] == t[3] && t[0].Send? && t[0].data == data && t[1] == Send(rs, data)
  {
    var config := rs | (ce << 2);
    [Send(config, data), Send(rs, data), Delay(5), Send(config, data), Delay(5)]
  }

  /** The post-delay of `send`: 5 µs after data, 2000 µs after a command (long enough for Clear and Return Home). */
  function PostDelay(rs: u8): (us: nat)
    ensures us >= 5
    ensures us == 2000 <==> rs == 0
    ensures rs != 0 ==> us == 5
  {
    if rs != 0 then 5 else 2000
  }

  /** The calls of `send(data, rs_state)`: the high nibble, then the low nibble moved up, then the post-delay. */
  function SendEvents(ce: u8, data: u8, rs: u8): (t: seq<Event>)
    ensures |t| == 11 && t[10] == Delay(PostDelay(rs))
  {
    Send4BitsEvents(ce, data & 0xF0, rs) + Send4BitsEvents(ce, (data << 4) & 0xF0, rs) + [Delay(PostDelay(rs))]
  }

  /** The calls of a sequence of `send`s made while the enable selector is `ce`. */
  function Frame(ce: u8, instrs: seq<Instr>): (t: seq<Event>)
    ensures |t| == 11 * |instrs|
    decreases |instrs|
  {
    if instrs == [] then []
    else
      var last := instrs[|instrs| - 1];
      Frame(ce, instrs[..|instrs| - 1]) + SendEvents(ce, last.data, last.rs)
  }

  /** The calls of `init`: a settling delay, then the nibbles 0x3, 0x3, 0x3, 0x2 as commands, each followed
      by its own delay. */
  function InitEvents(ce: u8): (t: seq<Event>)
    ensures |t| == 25 && t[0] == Delay(150) && t[24] == Delay(10000)
  {
    [Delay(150)]
    + Send4BitsEvents(ce, 0x03 << 4, 0x00) + [Delay(5000)]
    + Send4BitsEvents(ce, 0x03 << 4, 0x00) + [Delay(160)]
    + Send4BitsEvents(ce, 0x03 << 4, 0x00) + [Delay(160)]
    + Send4BitsEvents(ce, 0x02 << 4, 0x00) + [Delay(10000)]
  }

  /** The selector `select_display(enable)` stores: a single bit, number `enable & 7`. */
  function SelectMask(enable: u8): (m: u8)
    ensures m != 0 && m & (m - 1) == 0
    ensures (m >> (enable & 0x07)) == 1
    ensures m in {0x01, 0x02, 0x04, 0x08, 0x10, 0x20, 0x40, 0x80}
  {
    1 << (enable & 0x07)
  }

  /** Concatenated sends give concatenated traces: this is what chaining `write(..).write(..)` amounts to. */
  lemma {:induction false} FrameAppend(ce: u8, a: seq<Instr>, b: seq<Instr>)
    ensures Frame(ce, a + b) == Frame(ce, a) + Frame(ce, b)
    decreases |b|
  {
    if b == [] {
      assert a + b == a;
    } else {
      var front := b[..|b| - 1];
      assert (a + b)[..|a + b| - 1] == a + front;
      FrameAppend(ce, a, front);
    }
  }

  lemma FrameSnoc(ce: u8, a: seq<Instr>, i: Instr)
    ensures Frame(ce, a + [i]) == Frame(ce, a) + SendEvents(ce, i.data, i.rs)
  {
    assert (a + [i])[..|a|] == a;
  }

  lemma FrameSingle(ce: u8, i: Instr)
    ensures Frame(ce, [i]) == SendEvents(ce, i.data, i.rs)
  {
    assert [i][..0] == [];
  }

  /** A trace that already holds the frame of `prefix` and then receives the frame of `more`
      holds the frame of `prefix + more`. */
  lemma ExtendFrame(start: seq<Event>, ce: u8, prefix: seq<Instr>, more: seq<Instr>, t: seq<Event>)
    requires t == start + Frame(ce, prefix) + Frame(ce, more)
    ensures t == start + Frame(ce, prefix + more)
  {
    FrameAppend(ce, prefix, more);
    AppendAssoc(start, Frame(ce, prefix), Frame(ce, more));
  }

  /** The same for one more `send`. */
  lemma ExtendBySend(start: seq<Event>, ce: u8, prefix: seq<Instr>, i: Instr, t: seq<Event>)
    requires t == start + Frame(ce, prefix) + SendEvents(ce, i.data, i.rs)
    ensures t == start + Frame(ce, prefix + [i])
  {
    FrameSingle(ce, i);
    ExtendFrame(start, ce, prefix, [i], t);
  }

  /** The five sends of `fast_config`, one after another, make up the frame of its instructions. */
  lemma FastConfigTrace(ce: u8, cfg: Flags.FastConfig, t0: seq<Event>, t1: seq<Event>, t2: seq<Event>,
                        t3: seq<Event>, t4: seq<Event>, t5: seq<Event>)
    requires t1 == t0 + SendEvents(ce, EntryModeByte(cfg), 0x00)
    requires t2 == t1 + SendEvents(ce, DisplayControlByte(cfg), 0x00)
    requires t3 == t2 + SendEvents(ce, FunctionSetByte(cfg), 0x00)
    requires t4 == t3 + Frame(ce, WriteInstrs(Command(Commands.Command.Clear)))
    requires t5 == t4 + Frame(ce, WriteInstrs(Command(Commands.Command.Reset)))
    ensures t5 == t0 + Frame(ce, FastConfigInstrs(cfg))
  {
    var e := CommandInstr(EntryModeByte(cfg));
    var d := CommandInstr(DisplayControlByte(cfg));
    var f := CommandInstr(FunctionSetByte(cfg));
    var clear := WriteInstrs(Command(Commands.Command.Clear));
    var reset := WriteInstrs(Command(Commands.Command.Reset));
    assert t0 + Frame(ce, []) == t0;
    ExtendBySend(t0, ce, [], e, t1);
    ExtendBySend(t0, ce, [] + [e], d, t2);
    ExtendBySend(t0, ce, [] + [e] + [d], f, t3);
    ExtendFrame(t0, ce, [] + [e] + [d] + [f], clear, t4);
    ExtendFrame(t0, ce, [] + [e] + [d] + [f] + clear, reset, t5);
    assert [] + [e] + [d] + [f] + clear + reset == FastConfigInstrs(cfg);
  }

  /** One more character of `write(Text(s))` sent. */
  lemma TextStep(start: seq<Event>, ce: u8, s: string, k: nat, t: seq<Event>)
    requires k < |s|
    requires t == start + Frame(ce, DataInstrs(TextBytes(s[..k]))) + SendEvents(ce, CharByte(s[k]), Interfaces.RS)
    ensures t == start + Frame(ce, DataInstrs(TextBytes(s[..k + 1])))
  {
    ExtendBySend(start, ce, DataInstrs(TextBytes(s[..k])), DataInstr(CharByte(s[k])), t);
    assert TextBytes(s[..k + 1]) == TextBytes(s[..k]) + [CharByte(s[k])];
    DataInstrsSnoc(TextBytes(s[..k]), CharByte(s[k]));
  }

  /** One more glyph row of `custom_char` sent. */
  lemma GlyphStep(start: seq<Event>, ce: u8, address: Instr, glyph: seq<u8>, c: nat, t: seq<Event>)
    requires c < |glyph|
    requires t == start + Frame(ce, [address] + DataInstrs(glyph[..c])) + SendEvents(ce, glyph[c], Interfaces.RS)
    ensures t == start + Frame(ce, [address] + DataInstrs(glyph[..c + 1]))
  {
    var rows, i := DataInstrs(glyph[..c]), DataInstr(glyph[c]);
    ExtendBySend(start, ce, [address] + rows, i, t);
    assert glyph[..c + 1] == glyph[..c] + [glyph[c]];
    DataInstrsSnoc(glyph[..c], glyph[c]);
    AppendAssoc([address], rows, [i]);
  }

  // ---------------------------------------------------------------- the drivers

  class LiquidCrystal4Bits {
    const wire: Wire
    /** `corrent_enable`: the enable lines of the panels the next transactions strobe, one bit per panel,
        moved up into config bits 2 and higher when sent. */
    var currentEnable: u8

    constructor (wire: Wire)
      ensures this.wire == wire && currentEnable == 1
    {
      this.wire := wire;
      currentEnable := 1;
    }

    method Send4Bits(data: u8, rs: u8)
      modifies wire
      ensures wire.trace == old(wire.trace) + Send4BitsEvents(currentEnable, data, rs)
      ensures currentEnable == old(currentEnable)
    {
      var config := rs | (currentEnable << 2);
      ghost var before := wire.trace;
      wire.Send(config, data);
      wire.Send(rs, data);
      wire.DelayUs(5);
      wire.Send(config, data);
      wire.DelayUs(5);
      assert wire.trace == before + [Event.Send(config, data), Event.Send(rs, data), Delay(5), Event.Send(config, data), Delay(5)];
    }

    method Init()
      modifies wire
      ensures wire.trace == old(wire.trace) + InitEvents(currentEnable)
      ensures currentEnable == old(currentEnable)
    {
      wire.DelayUs(150);
      Send4Bits(0x03 << 4, 0x00);
      wire.DelayUs(5000);
      Send4Bits(0x03 << 4, 0x00);
      wire.DelayUs(160);
      Send4Bits(0x03 << 4, 0x00);
      wire.DelayUs(160);
      Send4Bits(0x02 << 4, 0x00);
      wire.DelayUs(10000);
    }

    method SelectDisplay(enable: u8)
      modifies this
      ensures currentEnable == SelectMask(enable)
      ensures unchanged(wire)
    {
      currentEnable := 1 << (enable & 0x07);
    }

    /** Broadcast: the enable selector covers the first four panels. */
    method Echo()
      modifies this
      ensures currentEnable == 0x0F
      ensures unchanged(wire)
    {
      currentEnable := 0x0F;
    }

    /** The framer's implementation of the trait's required `send`. */
    method Send(data: u8, rs: u8)
      modifies wire
      ensures wire.trace == old(wire.trace) + SendEvents(currentEnable, data, rs)
      ensures currentEnable == old(currentEnable)
    {
      var highBits := data & 0xF0;
      var lowBits := (data << 4) & 0xF0;
      ghost var before := wire.trace;
      Send4Bits(highBits, rs);
      Send4Bits(lowBits, rs);
      ghost var nibbles := wire.trace;
      if rs != 0 {
        wire.DelayUs(5);
      } else {
        wire.DelayUs(2000);
      }
      assert wire.trace == nibbles + [Delay(PostDelay(rs))];
      assert wire.trace == before + SendEvents(currentEnable, data, rs);
    }

    /** The trait's default `write`. */
    method Write(st: SendType)
      modifies wire
      ensures wire.trace == old(wire.trace) + Frame(currentEnable, WriteInstrs(st))
    {
      match st
      case Command(c) =>
        Send(c.Opcode(), 0x00);
        FrameSingle(currentEnable, CommandInstr(c.Opcode()));
      case Text(s) =>
        WriteText(s);
      case CustomChar(slot) =>
        if slot < 8 {
          Send(slot, Interfaces.RS);
          FrameSingle(currentEnable, DataInstr(slot));
        }
    }

    /** The `Text` arm of `write`: one data send per character, in order. */
    method WriteText(s: string)
      modifies wire
      ensures wire.trace == old(wire.trace) + Frame(currentEnable, DataInstrs(TextBytes(s)))
    {
      ghost var start := wire.trace;
      for k := 0 to |s|
        invariant wire.trace == start + Frame(currentEnable, DataInstrs(TextBytes(s[..k])))
      {
        Send(CharByte(s[k]), Interfaces.RS);
        TextStep(start, currentEnable, s, k, wire.trace);
      }
      assert s[..|s|] == s;
    }

    /** The trait's default `set_cursor`. */
    method SetCursor(line: u8, col: u8)
      modifies wire
      ensures wire.trace == old(wire.trace) + Frame(currentEnable, SetCursorInstrs(line, col))
    {
      var bits := if line == 1 then Commands.Command.MoveLine1.Opcode() + (0x3F & col)
                  else Commands.Command.MoveLine2.Opcode() + (0x3F & col);
      Send(bits, 0x00);
      FrameSingle(currentEnable, CommandInstr(SetCursorCommand(line, col)));
    }

    /** The trait's default `custom_char`. */
    method CustomChar(glyph: seq<u8>, slot: u8)
      requires |glyph| == 8
      modifies wire
      ensures wire.trace == old(wire.trace) + Frame(currentEnable, CustomCharInstrs(glyph, slot))
    {
      ghost var start := wire.trace;
      if slot < 8 {
        DefineGlyph(glyph, slot);
        Write(Command(Commands.Command.Reset));
        ExtendFrame(start, currentEnable, [CommandInstr(CgramAddressCommand(slot))] + DataInstrs(glyph),
                    WriteInstrs(Command(Commands.Command.Reset)), wire.trace);
      } else {
        Write(Command(Commands.Command.Reset));
      }
    }

    /** The part of `custom_char` that a valid slot adds: the Set CGRAM Address command, then the 8 rows as data. */
    method DefineGlyph(glyph: seq<u8>, slot: u8)
      requires |glyph| == 8 && slot < 8
      modifies wire
      ensures wire.trace == old(wire.trace) + Frame(currentEnable, [CommandInstr(CgramAddressCommand(slot))] + DataInstrs(glyph))
    {
      ghost var start := wire.trace;
      var command := 0x40 | (slot << 3);
      assert command == CgramAddressCommand(slot);
      ghost var address := CommandInstr(command);
      Send(command, 0x00);
      FrameSingle(currentEnable, address);
      assert [address] + DataInstrs(glyph[..0]) == [address];
      for c := 0 to 8
        invariant wire.trace == start + Frame(currentEnable, [address] + DataInstrs(glyph[..c]))
      {
        Send(glyph[c], Interfaces.RS);
        GlyphStep(start, currentEnable, address, glyph, c, wire.trace);
      }
      assert glyph[..8] == glyph;
    }

    /** The trait's default `fast_config`. */
    method FastConfig(cfg: Flags.FastConfig)
      modifies wire
      ensures wire.trace == old(wire.trace) + Frame(currentEnable, FastConfigInstrs(cfg))
    {
      var entryMode := 0x04 | cfg.entryMode.0.Value() | cfg.entryMode.1.Value();
      var display := 0x08 | cfg.display.0.Value() | cfg.display.1.Value() | cfg.display.2.Value();
      var functionSet := 0x20 | cfg.displayConfig.0.Value() | cfg.displayConfig.1.Value() | cfg.displayConfig.2.Value();
      assert entryMode == EntryModeByte(cfg) && display == DisplayControlByte(cfg) && functionSet == FunctionSetByte(cfg);
      ghost var t0 := wire.trace;
      Send(entryMode, 0x00);
      ghost var t1 := wire.trace;
      Send(display, 0x00);
      ghost var t2 := wire.trace;
      Send(functionSet, 0x00);
      ghost var t3 := wire.trace;
      Write(Command(Commands.Command.Clear));
      ghost var t4 := wire.trace;
      Write(Command(Commands.Command.Reset));
      FastConfigTrace(currentEnable, cfg, t0, t1, t2, t3, t4, wire.trace);
    }
  }

  /** `LiquidCrystal8Bits`: only its constructor exists. */
  class LiquidCrystal8Bits {
    const wire: Wire
    var currentEnable: u8
    var multiplexLevel: u8

    constructor (wire: Wire, multiplexLevel: u8)
      ensures this.wire == wire && currentEnable == 1 && this.multiplexLevel == multiplexLevel
    {
      this.wire := wire;
      currentEnable := 1;
      this.multiplexLevel := multiplexLevel;
    }
  }
}
