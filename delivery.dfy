/** What the 4-bit framer's traces mean on the wire: their schedule, and what an HD44780 wired to one of the
    selected enable lines receives from them. */
module Delivery {
  import opened Bytes
  import opened Interfaces
  import opened Hd44780
  import opened Seqs
  import opened Sampling
  import opened LcdTrait
  import opened LcdBus
  import Commands
  import Flags

  // ---------------------------------------------------------------- schedule

  /** The five calls of `send4bits`, as a chain of single events. */
  lemma TransactionShape(ce: u8, data: u8, rs: u8)
    ensures Send4BitsEvents(ce, data, rs)
         == [Send(rs | (ce << 2), data)] + ([Send(rs, data)] + ([Delay(5)] + ([Send(rs | (ce << 2), data)] + ([Delay(5)] + []))))
  {
  }

  /** `send4bits` writes the data three times, with config `rs | (ce << 2)`, then `rs`, then again
      `rs | (ce << 2)`, and waits 5 µs after the second and after the third write. */
  lemma Send4BitsSchedule(ce: u8, data: u8, rs: u8)
    ensures Writes(Send4BitsEvents(ce, data, rs))
         == [Send(rs | (ce << 2), data), Send(rs, data), Send(rs | (ce << 2), data)]
    ensures Delays(Send4BitsEvents(ce, data, rs)) == [5, 5]
    ensures Send4BitsEvents(ce, data, rs)[2] == Delay(5) && Send4BitsEvents(ce, data, rs)[4] == Delay(5)
  {
    var c := rs | (ce << 2);
    TransactionShape(ce, data, rs);
    var t4 := [Delay(5)] + [];
    var t3 := [Send(c, data)] + t4;
    var t2 := [Delay(5)] + t3;
    var t1 := [Send(rs, data)] + t2;
    ScheduleCons(Delay(5), []);
    ScheduleCons(Send(c, data), t4);
    ScheduleCons(Delay(5), t3);
    ScheduleCons(Send(rs, data), t2);
    ScheduleCons(Send(c, data), t1);
  }

  /** `send` makes six writes, the high nibble's three then the low nibble's, all with the same RS value,
      and waits 5 µs four times inside the transactions, then 5 µs after data or 2000 µs after a command. */
  lemma SendSchedule(ce: u8, data: u8, rs: u8)
    ensures Writes(SendEvents(ce, data, rs))
         == Writes(Send4BitsEvents(ce, data & 0xF0, rs)) + Writes(Send4BitsEvents(ce, (data << 4) & 0xF0, rs))
    ensures |Writes(SendEvents(ce, data, rs))| == 6
    ensures Delays(SendEvents(ce, data, rs)) == [5, 5, 5, 5, if rs != 0 then 5 else 2000]
  {
    var high := Send4BitsEvents(ce, data & 0xF0, rs);
    var low := Send4BitsEvents(ce, (data << 4) & 0xF0, rs);
    Send4BitsSchedule(ce, data & 0xF0, rs);
    Send4BitsSchedule(ce, (data << 4) & 0xF0, rs);
    ScheduleAppend(high, low);
    ScheduleAppend(high + low, [Delay(PostDelay(rs))]);
    ScheduleCons(Delay(PostDelay(rs)), []);
    assert [Delay(PostDelay(rs))] == [Delay(PostDelay(rs))] + [];
  }

  /** The calls of `init`, grouped from the right: each step is a delay or a whole nibble transaction. */
  lemma InitShape(ce: u8)
    ensures InitEvents(ce)
         == [Delay(150)] + (Send4BitsEvents(ce, 0x30, 0x00) + ([Delay(5000)]
          + (Send4BitsEvents(ce, 0x30, 0x00) + ([Delay(160)]
          + (Send4BitsEvents(ce, 0x30, 0x00) + ([Delay(160)]
          + (Send4BitsEvents(ce, 0x20, 0x00) + ([Delay(10000)] + []))))))))
  {
  }

  /** A delay followed by a nibble transaction: three writes, then the delays `us`, 5 and 5. */
  lemma WaitAndSendSchedule(us: nat, ce: u8, data: u8, rest: seq<Event>)
    ensures |Writes([Delay(us)] + (Send4BitsEvents(ce, data, 0x00) + rest))| == 3 + |Writes(rest)|
    ensures Delays([Delay(us)] + (Send4BitsEvents(ce, data, 0x00) + rest)) == [us, 5, 5] + Delays(rest)
  {
    Send4BitsSchedule(ce, data, 0x00);
    ScheduleAppend(Send4BitsEvents(ce, data, 0x00), rest);
    ScheduleCons(Delay(us), Send4BitsEvents(ce, data, 0x00) + rest);
  }

  /** `init` makes 12 writes and waits 150 µs first, then 5000, 160, 160 and 10000 µs between and after its
      four nibble transactions (which wait 5 µs twice each). */
  lemma InitSchedule(ce: u8)
    ensures |Writes(InitEvents(ce))| == 12
    ensures Delays(InitEvents(ce)) == [150, 5, 5, 5000, 5, 5, 160, 5, 5, 160, 5, 5, 10000]
  {
    var n3 := Send4BitsEvents(ce, 0x30, 0x00);
    var r1 := [Delay(10000)] + [];
    var r2 := [Delay(160)] + (Send4BitsEvents(ce, 0x20, 0x00) + r1);
    var r3 := [Delay(160)] + (n3 + r2);
    var r4 := [Delay(5000)] + (n3 + r3);
    InitShape(ce);
    assert InitEvents(ce) == [Delay(150)] + (n3 + r4);
    ScheduleCons(Delay(10000), []);
    WaitAndSendSchedule(160, ce, 0x20, r1);
    WaitAndSendSchedule(160, ce, 0x30, r2);
    WaitAndSendSchedule(5000, ce, 0x30, r3);
    WaitAndSendSchedule(150, ce, 0x30, r4);
  }

  // ---------------------------------------------------------------- what the controller receives

  /** A nibble transaction on a selected line delivers exactly one strobe, carrying `rs` and the nibble,
      whatever the line's level before, and leaves the line high. This is why the high-low-high pattern works:
      the next transaction changes the data lines while Enable is high, and only its own falling edge samples them. */
  lemma Send4BitsStrobe(ce: u8, data: u8, rs: u8, en: u8, high: bool)
    requires (ce << 2) & en != 0
    requires rs & en == 0
    ensures Sampled(Send4BitsEvents(ce, data, rs), en, high) == [Strobe(rs & RS != 0, data & 0xF0)]
    ensures Level(Send4BitsEvents(ce, data, rs), en, high)
  {
    assert (rs | (ce << 2)) & en != 0;
    TransactionShape(ce, data, rs);
    TransactionStrobe(rs | (ce << 2), rs, data, en, high);
  }

  /** The strobe pattern itself: a write that raises the line, one that lowers it, a delay, one that raises it
      again and a delay yield exactly the second write's strobe. */
  lemma TransactionStrobe(c: u8, rs: u8, data: u8, en: u8, high: bool)
    requires c & en != 0
    requires rs & en == 0
    ensures Sampled([Send(c, data)] + ([Send(rs, data)] + ([Delay(5)] + ([Send(c, data)] + ([Delay(5)] + [])))), en, high)
         == [Strobe(rs & RS != 0, data & 0xF0)]
    ensures Level([Send(c, data)] + ([Send(rs, data)] + ([Delay(5)] + ([Send(c, data)] + ([Delay(5)] + [])))), en, high)
  {
    var t4 := [Delay(5)] + [];
    var t3 := [Send(c, data)] + t4;
    var t2 := [Delay(5)] + t3;
    var t1 := [Send(rs, data)] + t2;
    SampledIdle(5, [], en, true);
    SampledRaise(c, data, t4, en, false);
    SampledIdle(5, t3, en, false);
    SampledFall(rs, data, t2, en);
    SampledRaise(c, data, t1, en, high);
  }

  /** `send` delivers the high nibble, then the low nibble moved up, with the same RS on both. */
  lemma SendStrobes(ce: u8, data: u8, rs: u8, en: u8, high: bool)
    requires (ce << 2) & en != 0
    requires rs & en == 0
    ensures Sampled(SendEvents(ce, data, rs), en, high)
         == [Strobe(rs & RS != 0, data & 0xF0), Strobe(rs & RS != 0, (data << 4) & 0xF0)]
    ensures Level(SendEvents(ce, data, rs), en, high)
  {
    var h := Send4BitsEvents(ce, data & 0xF0, rs);
    var l := Send4BitsEvents(ce, (data << 4) & 0xF0, rs);
    Send4BitsStrobe(ce, data & 0xF0, rs, en, high);
    SampledAppend(h, l, en, high);
    Send4BitsStrobe(ce, (data << 4) & 0xF0, rs, en, Level(h, en, high));
    SampledAppend(h + l, [Delay(PostDelay(rs))], en, high);
    SampledIdle(PostDelay(rs), [], en, true);
    assert [Delay(PostDelay(rs))] == [Delay(PostDelay(rs))] + [];
    assert (data & 0xF0) & 0xF0 == data & 0xF0 && ((data << 4) & 0xF0) & 0xF0 == (data << 4) & 0xF0;
  }

  /** A nibble transaction on a selected line contributes its one strobe to whatever follows it, which is
      then sampled from a high line. */
  lemma TransactionThen(ce: u8, data: u8, rs: u8, rest: seq<Event>, en: u8, high: bool)
    requires (ce << 2) & en != 0
    requires rs & en == 0
    ensures Sampled(Send4BitsEvents(ce, data, rs) + rest, en, high)
         == [Strobe(rs & RS != 0, data & 0xF0)] + Sampled(rest, en, true)
  {
    Send4BitsStrobe(ce, data, rs, en, high);
    SampledAppend(Send4BitsEvents(ce, data, rs), rest, en, high);
  }

  /** A delay followed by a command nibble transaction: one strobe, then a high line. */
  lemma WaitAndSendNibble(us: nat, ce: u8, data: u8, rest: seq<Event>, en: u8, high: bool)
    requires (ce << 2) & en != 0
    ensures Sampled([Delay(us)] + (Send4BitsEvents(ce, data, 0x00) + rest), en, high)
         == [Strobe(false, data & 0xF0)] + Sampled(rest, en, true)
  {
    SampledIdle(us, Send4BitsEvents(ce, data, 0x00) + rest, en, high);
    TransactionThen(ce, data, 0x00, rest, en, high);
  }

  /** `init` delivers the four nibbles 0x3, 0x3, 0x3, 0x2 as commands: three 8-bit Function Set instructions
      and the switch to the 4-bit interface. */
  lemma InitStrobes(ce: u8, en: u8, high: bool)
    requires (ce << 2) & en != 0
    ensures Sampled(InitEvents(ce), en, high)
         == [Strobe(false, 0x30), Strobe(false, 0x30), Strobe(false, 0x30), Strobe(false, 0x20)]
  {
    var n3 := Send4BitsEvents(ce, 0x30, 0x00);
    var r1 := [Delay(10000)] + [];
    var r2 := [Delay(160)] + (Send4BitsEvents(ce, 0x20, 0x00) + r1);
    var r3 := [Delay(160)] + (n3 + r2);
    var r4 := [Delay(5000)] + (n3 + r3);
    InitShape(ce);
    assert InitEvents(ce) == [Delay(150)] + (n3 + r4);
    SampledIdle(10000, [], en, true);
    WaitAndSendNibble(160, ce, 0x20, r1, en, true);
    WaitAndSendNibble(160, ce, 0x30, r2, en, true);
    WaitAndSendNibble(5000, ce, 0x30, r3, en, true);
    WaitAndSendNibble(150, ce, 0x30, r4, en, high);
  }

  /** The strobes a sequence of sends should produce: for each, its high nibble then its low nibble. */
  function NibbleStrobes(instrs: seq<Instr>): (r: seq<Strobe>)
    ensures |r| == 2 * |instrs|
    decreases |instrs|
  {
    if instrs == [] then []
    else
      var last := instrs[|instrs| - 1];
      NibbleStrobes(instrs[..|instrs| - 1])
      + [Strobe(last.rs & RS != 0, last.data & 0xF0), Strobe(last.rs & RS != 0, (last.data << 4) & 0xF0)]
  }

  /** The bytes a sequence of sends should deliver: each send's data, to the register its RS selects. */
  function Delivered(instrs: seq<Instr>): seq<Received>
  {
    seq(|instrs|, k requires 0 <= k < |instrs| => Received(instrs[k].rs & RS != 0, instrs[k].data))
  }

  lemma DeliveredSnoc(front: seq<Instr>, last: Instr)
    ensures Delivered(front + [last]) == Delivered(front) + [Received(last.rs & RS != 0, last.data)]
  {
  }

  /** Every send of `instrs` keeps the enable line `en` low in the write that carries only RS. */
  predicate StaysOffEnable(instrs: seq<Instr>, en: u8)
  {
    forall k :: 0 <= k < |instrs| ==> instrs[k].rs & en == 0
  }

  lemma {:induction false} FrameStrobes(ce: u8, instrs: seq<Instr>, en: u8, high: bool)
    requires (ce << 2) & en != 0
    requires StaysOffEnable(instrs, en)
    ensures Sampled(Frame(ce, instrs), en, high) == NibbleStrobes(instrs)
    decreases |instrs|
  {
    if instrs != [] {
      var front, last := instrs[..|instrs| - 1], instrs[|instrs| - 1];
      assert StaysOffEnable(front, en);
      FrameStrobes(ce, front, en, high);
      SampledAppend(Frame(ce, front), SendEvents(ce, last.data, last.rs), en, high);
      SendStrobes(ce, last.data, last.rs, en, Level(Frame(ce, front), en, high));
    }
  }

  lemma {:induction false} NibbleStrobesReassemble(instrs: seq<Instr>)
    ensures Reassemble(NibbleStrobes(instrs)) == Delivered(instrs)
    decreases |instrs|
  {
    if instrs != [] {
      var front, last := instrs[..|instrs| - 1], instrs[|instrs| - 1];
      var rs := last.rs & RS != 0;
      NibbleStrobesReassemble(front);
      ReassembleSnoc(NibbleStrobes(front), Strobe(rs, last.data & 0xF0), Strobe(rs, (last.data << 4) & 0xF0));
      NibblesRecombine(rs, last.data);
      DeliveredSnoc(front, last);
      assert instrs == front + [last];
    }
  }

  /** The 4-bit framing is correct: a controller on any enable line the selector covers reassembles from the
      trace of a sequence of sends exactly the bytes sent, in order, each to the register its RS selects,
      whatever the line's level was before. */
  lemma FourBitDelivery(ce: u8, instrs: seq<Instr>, en: u8, high: bool)
    requires (ce << 2) & en != 0
    requires StaysOffEnable(instrs, en)
    ensures Reassemble(Sampled(Frame(ce, instrs), en, high)) == Delivered(instrs)
  {
    FrameStrobes(ce, instrs, en, high);
    NibbleStrobesReassemble(instrs);
  }

  /** On the first panel's Enable, `write(Text(s))` delivers the character codes of `s`, in order, as data. */
  lemma WriteTextDelivery(ce: u8, s: string, high: bool)
    requires ce & 1 == 1
    ensures Reassemble(Sampled(Frame(ce, WriteInstrs(Text(s))), EN, high))
         == seq(|s|, k requires 0 <= k < |s| => Received(true, CharByte(s[k])))
  {
    assert (ce << 2) & EN != 0;
    FourBitDelivery(ce, WriteInstrs(Text(s)), EN, high);
  }

  /** `fast_config` delivers, on the first panel's Enable, the Entry Mode Set, Display Control and Function
      Set bytes of the configuration, then Clear and Return Home, all as commands. */
  lemma FastConfigDelivery(ce: u8, cfg: Flags.FastConfig, high: bool)
    requires ce & 1 == 1
    ensures Reassemble(Sampled(Frame(ce, FastConfigInstrs(cfg)), EN, high))
         == [Received(false, EntryModeByte(cfg)), Received(false, DisplayControlByte(cfg)),
             Received(false, FunctionSetByte(cfg)), Received(false, 0x01), Received(false, 0x02)]
  {
    assert (ce << 2) & EN != 0;
    FastConfigSpec(cfg, cfg.writeConfig);
    FourBitDelivery(ce, FastConfigInstrs(cfg), EN, high);
  }

  /** `select_display(k)` for k in 0..3 makes the selector cover config bit k + 2, so panel 0 listens on EN
      and panel 1 on bit 3 (EN2 of the parallel wiring); the `echo` selector 0x0F covers both.
      For k in 4..7 the selector reaches neither wired enable bit, and for 6 and 7 the `u8` shift
      `corrent_enable << 2` drops the bit altogether, so no enable line is ever pulsed. */
  lemma SelectedLines(enable: u8)
    ensures enable & 0x07 < 4 ==> (SelectMask(enable) << 2) & (1 << ((enable & 0x07) + 2)) != 0
    ensures (SelectMask(0) << 2) & EN != 0 && (SelectMask(1) << 2) & 0x08 != 0
    ensures ((0x0F as u8) << 2) & EN != 0 && ((0x0F as u8) << 2) & 0x08 != 0
    ensures enable & 0x07 >= 4 ==> (SelectMask(enable) << 2) & 0x0F == 0
    ensures enable & 0x07 >= 6 ==> SelectMask(enable) << 2 == 0
  {
  }
  // ---------------------------------------------------------------- changing the selector

  /** A nibble transaction on a line the selector does not cover. Its first write pulls the line low, so a line
      that an earlier send left high sees one falling edge and samples this transaction's nibble; a low line
      samples nothing. Either way the line ends low. */
  lemma DeselectedNibble(ce: u8, data: u8, rs: u8, en: u8, high: bool)
    requires (ce << 2) & en == 0
    requires rs & en == 0
    ensures Sampled(Send4BitsEvents(ce, data, rs), en, high)
         == (if high then [Strobe(rs & RS != 0, data & 0xF0)] else [])
    ensures !Level(Send4BitsEvents(ce, data, rs), en, high)
  {
    var c := rs | (ce << 2);
    assert c & en == 0 && c & RS == rs & RS;
    TransactionShape(ce, data, rs);
    var t4 := [Delay(5)] + [];
    var t3 := [Send(c, data)] + t4;
    var t2 := [Delay(5)] + t3;
    var t1 := [Send(rs, data)] + t2;
    SampledIdle(5, [], en, false);
    SampledStayLow(c, data, t4, en);
    SampledIdle(5, t3, en, false);
    SampledStayLow(rs, data, t2, en);
    if high {
      SampledFall(c, data, t1, en);
    } else {
      SampledStayLow(c, data, t1, en);
    }
  }

  /** `send` on a deselected line: one stray strobe, carrying the high nibble, if the line was left high, and
      none otherwise; the line ends low. */
  lemma DeselectedSend(ce: u8, data: u8, rs: u8, en: u8, high: bool)
    requires (ce << 2) & en == 0
    requires rs & en == 0
    ensures Sampled(SendEvents(ce, data, rs), en, high)
         == (if high then [Strobe(rs & RS != 0, data & 0xF0)] else [])
    ensures !Level(SendEvents(ce, data, rs), en, high)
  {
    var h := Send4BitsEvents(ce, data & 0xF0, rs);
    var l := Send4BitsEvents(ce, (data << 4) & 0xF0, rs);
    DeselectedNibble(ce, data & 0xF0, rs, en, high);
    SampledAppend(h, l, en, high);
    DeselectedNibble(ce, (data << 4) & 0xF0, rs, en, false);
    SampledAppend(h + l, [Delay(PostDelay(rs))], en, high);
    SampledIdle(PostDelay(rs), [], en, false);
    assert [Delay(PostDelay(rs))] == [Delay(PostDelay(rs))] + [];
    assert (data & 0xF0) & 0xF0 == data & 0xF0;
  }

  /** Moving the selector from panel 0 to panel 1 between two character sends, as written: panel 0, left high
      by its own send, latches the high nibble of the byte meant for panel 1. */
  lemma SelectorChangeStrayStrobe(d1: u8, d2: u8, high: bool)
    ensures Sampled(SendEvents(1, d1, RS) + SendEvents(SelectMask(1), d2, RS), EN, high)
         == [Strobe(true, d1 & 0xF0), Strobe(true, (d1 << 4) & 0xF0), Strobe(true, d2 & 0xF0)]
  {
    SendStrobes(1, d1, RS, EN, high);
    SampledAppend(SendEvents(1, d1, RS), SendEvents(SelectMask(1), d2, RS), EN, high);
    assert SelectMask(1) << 2 == 0x08;
    DeselectedSend(SelectMask(1), d2, RS, EN, true);
  }

  /** Five strobes deliver two bytes; the fifth waits for a partner. */
  lemma ReassembleFive(a: Strobe, b: Strobe, c: Strobe, d: Strobe, e: Strobe)
    ensures Reassemble([a, b, c, d, e]) == [Combine(a, b), Combine(c, d)]
  {
    var s := [a, b, c, d, e];
    assert s[2..] == [c, d, e];
    assert [c, d, e][2..] == [e];
    assert Reassemble([e]) == [];
    assert Reassemble([c, d, e]) == [Combine(c, d)] + Reassemble([e]);
    assert Reassemble(s) == [Combine(a, b)] + Reassemble([c, d, e]);
  }

  /** Selecting panel 0 again afterwards: panel 0 sees the stray strobe between the two strobes of each of
      its own sends. */
  lemma SelectorChangeStrobes(d1: u8, d2: u8, d3: u8, high: bool)
    ensures Sampled(SendEvents(1, d1, RS) + SendEvents(SelectMask(1), d2, RS) + SendEvents(1, d3, RS), EN, high)
         == [Strobe(true, d1 & 0xF0), Strobe(true, (d1 << 4) & 0xF0), Strobe(true, d2 & 0xF0)]
          + [Strobe(true, d3 & 0xF0), Strobe(true, (d3 << 4) & 0xF0)]
  {
    var a := SendEvents(1, d1, RS) + SendEvents(SelectMask(1), d2, RS);
    SelectorChangeStrayStrobe(d1, d2, high);
    SendStrobes(1, d1, RS, EN, high);
    SampledAppend(SendEvents(1, d1, RS), SendEvents(SelectMask(1), d2, RS), EN, high);
    assert SelectMask(1) << 2 == 0x08;
    DeselectedSend(SelectMask(1), d2, RS, EN, true);
    SampledAppend(a, SendEvents(1, d3, RS), EN, high);
    SendStrobes(1, d3, RS, EN, false);
  }

  /** Selecting panel 0 again afterwards, as written: its nibble pairing is off by one, so the next character
      it shows is made of the stray high nibble of `d2` and the high nibble of `d3`. */
  lemma SelectorChangeMisaligns(d1: u8, d2: u8, d3: u8, high: bool)
    ensures Reassemble(Sampled(SendEvents(1, d1, RS) + SendEvents(SelectMask(1), d2, RS) + SendEvents(1, d3, RS), EN, high))
         == [Received(true, d1), Received(true, (d2 & 0xF0) | (d3 >> 4))]
  {
    SelectorChangeStrobes(d1, d2, d3, high);
    var h1, l1, s2 := Strobe(true, d1 & 0xF0), Strobe(true, (d1 << 4) & 0xF0), Strobe(true, d2 & 0xF0);
    var h3, l3 := Strobe(true, d3 & 0xF0), Strobe(true, (d3 << 4) & 0xF0);
    assert [h1, l1, s2] + [h3, l3] == [h1, l1, s2, h3, l3];
    ReassembleFive(h1, l1, s2, h3, l3);
    NibblesRecombine(true, d1);
    StrayPairing(d2, d3);
  }

  /** The byte that the stray strobe and the next high nibble make together. */
  lemma StrayPairing(d2: u8, d3: u8)
    ensures Combine(Strobe(true, d2 & 0xF0), Strobe(true, d3 & 0xF0)) == Received(true, (d2 & 0xF0) | (d3 >> 4))
  {
  }
}
