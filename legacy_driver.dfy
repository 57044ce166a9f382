/** The older single-file driver `LiquidCristal` of src/lib.rs. It speaks to a one-argument interface: every
    byte carries RS in bit 0, EN in bit 2 and the nibble in bits 4-7. Each nibble is strobed with Enable
    low, high, low. Its `set_cursor` is modelled as written, which always sends command 0x00 (see
    `LegacyCursorByte` and `SetCursorIgnoresPosition`). */
module LegacyDriver {
  import opened Bytes
  import opened Hd44780
  import opened Seqs
  import opened Sampling
  import LcdTrait
  import Interfaces
  import Delivery

  /** Enable and Register Select in the one-byte interface: the same bits as the lcd_trait transports use. */
  const EN: u8 := Interfaces.EN
  const RS: u8 := Interfaces.RS

  /** The command set of the older driver, with its discriminants (the source spells "LiquidCristal"). */
  datatype Command = Clear | EntryMode | LiquidCristalOff | Fun4bits1line | Fun4bits2line
                   | CursorOn | CursorOff | MoveLine1 | MoveLine2
  {
    function Opcode(): u8
    {
      match this
      case Clear => 0x01
      case EntryMode => 0x06
      case LiquidCristalOff => 0x08
      case Fun4bits1line => 0x20
      case Fun4bits2line => 0x28
      case CursorOn => 0x0E
      case CursorOff => 0x0C
      case MoveLine1 => 0x80
      case MoveLine2 => 0xC0
    }
  }

  /** No two commands share a discriminant. */
  lemma OpcodesDistinct(a: Command, b: Command)
    ensures a.Opcode() == b.Opcode() <==> a == b
  {
  }

  datatype SendType = Command(cmd: Command) | Text(text: string)

  // ---------------------------------------------------------------- the one-byte interface and the timer

  /** One call on the one-argument interface or on the delay. */
  datatype PortEvent = Out(byte: u8) | Wait(us: nat)

  /** Records, in order, the bytes sent through the one-argument interface and the delays requested. */
  class Port {
    var trace: seq<PortEvent>

    constructor()
      ensures trace == []
    {
      trace := [];
    }

    method Send(byte: u8)
      modifies this
      ensures trace == old(trace) + [Out(byte)]
    {
      trace := trace + [Out(byte)];
    }

    method DelayUs(us: nat)
      modifies this
      ensures trace == old(trace) + [Wait(us)]
    {
      trace := trace + [Wait(us)];
    }
  }

  // ---------------------------------------------------------------- the traces the driver produces

  /** `send4bits(d)`: `d`, `d | EN`, 5 µs, `d`, 5 µs. */
  function Send4BitsTrace(d: u8): (t: seq<PortEvent>)
    ensures |t| == 5 && t[0] == t[3] == Out(d) && t[2] == t[4] == Wait(5)
    ensures t[1].Out? && t[1].byte & EN != 0 && t[1].byte & !EN == d & !EN
  {
    [Out(d), Out(d | EN), Wait(5), Out(d), Wait(5)]
  }

  /** The two bytes `send(d, rs_state)` strobes: the high nibble, then the low nibble moved up, each with `rs`. */
  function HighBits(d: u8, rs: u8): (b: u8)
    ensures b & 0x0F == rs & 0x0F
    ensures rs & 0xF0 == 0 ==> b >> 4 == d >> 4
  {
    (d & 0xF0) | rs
  }

  function LowBits(d: u8, rs: u8): (b: u8)
    ensures b & 0x0F == rs & 0x0F
    ensures rs & 0xF0 == 0 ==> b >> 4 == d & 0x0F
  {
    ((d << 4) & 0xF0) | rs
  }

  /** Masking the two bytes back to their nibbles and recombining them restores `d`, and both keep `rs` in the
      low half, as long as `rs` stays out of the data nibble. */
  lemma NibblesRestoreByte(d: u8, rs: u8)
    requires rs & 0xF0 == 0
    ensures (HighBits(d, rs) & 0xF0) | ((LowBits(d, rs) & 0xF0) >> 4) == d
    ensures HighBits(d, rs) & 0x0F == rs && LowBits(d, rs) & 0x0F == rs
  {
  }

  /** `send(d, rs_state)`: two nibble transactions and no delay of its own. */
  function SendTrace(d: u8, rs: u8): (t: seq<PortEvent>)
    ensures |t| == 10
  {
    Send4BitsTrace(HighBits(d, rs)) + Send4BitsTrace(LowBits(d, rs))
  }

  /** The shape of one `send`: the high-nibble transaction comes first and the low-nibble one second, each
      closed by its 5 µs wait; with RS confined to the low four bits, the first write carries the high
      nibble of `d` and the sixth its low nibble, both in bits 7-4. */
  lemma SendTraceShape(d: u8, rs: u8)
    ensures SendTrace(d, rs)[0] == Out(HighBits(d, rs)) && SendTrace(d, rs)[5] == Out(LowBits(d, rs))
    ensures SendTrace(d, rs)[4] == Wait(5) && SendTrace(d, rs)[9] == Wait(5)
    ensures rs & 0xF0 == 0 ==> SendTrace(d, rs)[0].byte >> 4 == d >> 4 && SendTrace(d, rs)[5].byte >> 4 == d & 0x0F
  {
    var h, l := Send4BitsTrace(HighBits(d, rs)), Send4BitsTrace(LowBits(d, rs));
    assert SendTrace(d, rs)[..5] == h && SendTrace(d, rs)[5..] == l;
  }

  /** A sequence of `send`s, each followed by a wait of `wait` µs. */
  function Sends(instrs: seq<LcdTrait.Instr>, wait: nat): (t: seq<PortEvent>)
    ensures |t| == 11 * |instrs|
    decreases |instrs|
  {
    if instrs == [] then []
    else
      var last := instrs[|instrs| - 1];
      Sends(instrs[..|instrs| - 1], wait) + SendTrace(last.data, last.rs) + [Wait(wait)]
  }

  /** The sends `write` makes: a command's opcode with RS low, or each character's code with RS high. */
  function Instrs(st: SendType): (r: seq<LcdTrait.Instr>)
    ensures st.Command? ==> |r| == 1 && LcdTrait.IsCommand(r[0])
    ensures st.Text? ==> |r| == |st.text| && forall k :: 0 <= k < |r| ==> r[k].rs == RS
  {
    match st
    case Command(c) => [LcdTrait.CommandInstr(c.Opcode())]
    case Text(s) => LcdTrait.DataInstrs(LcdTrait.TextBytes(s))
  }

  /** The wait `write` makes after each of its sends. */
  function PostWait(st: SendType): (w: nat)
    ensures w >= 80
    ensures w == 2000 <==> st.Command?
    ensures st.Text? ==> w == 80
  {
    if st.Command? then 2000 else 80
  }

  function WriteTrace(st: SendType): (t: seq<PortEvent>)
    ensures |t| == 11 * |Instrs(st)|
  {
    Sends(Instrs(st), PostWait(st))
  }

  /** The nibble part of `init`: 0x3, 0x3, 0x3, 0x2, followed by 5000, 160, 160 and 10000 µs. */
  function InitNibbles(): (t: seq<PortEvent>)
    ensures |t| == 24
    ensures t[5] == Wait(5000) && t[11] == Wait(160) && t[17] == Wait(160) && t[23] == Wait(10000)
  {
    Send4BitsTrace(0x03 << 4) + [Wait(5000)]
    + Send4BitsTrace(0x03 << 4) + [Wait(160)]
    + Send4BitsTrace(0x03 << 4) + [Wait(160)]
    + Send4BitsTrace(0x02 << 4) + [Wait(10000)]
  }

  function InitTrace(): (t: seq<PortEvent>)
    ensures |t| == 24 + 3 * 11
    ensures t[..24] == InitNibbles() && t[|t| - 1] == Wait(2000)
  {
    InitNibbles()
    + WriteTrace(Command(Fun4bits2line)) + WriteTrace(Command(CursorOff)) + WriteTrace(Command(Clear))
  }

  /** The command byte `set_cursor` computes, as written: `MoveLine1 & (0x3F & col)` on both branches.
      0x80 and 0x3F have no bit in common, so the byte is always 0x00. */
  function LegacyCursorByte(line: u8, col: u8): (b: u8)
    ensures b == 0x00
  {
    if line == 1 then MoveLine1.Opcode() & (0x3F & col) else MoveLine1.Opcode() & (0x3F & col)
  }

  // ---------------------------------------------------------------- the driver

  class LiquidCristal {
    const port: Port

    constructor(port: Port)
      ensures this.port == port
    {
      this.port := port;
    }

    method Send4Bits(data: u8)
      modifies port
      ensures port.trace == old(port.trace) + Send4BitsTrace(data)
    {
      ghost var before := port.trace;
      port.Send(data);
      port.Send(data | EN);
      port.DelayUs(5);
      port.Send(data);
      port.DelayUs(5);
      assert port.trace == before + [Out(data), Out(data | EN), Wait(5), Out(data), Wait(5)];
    }

    method Send(data: u8, rsState: u8)
      modifies port
      ensures port.trace == old(port.trace) + SendTrace(data, rsState)
    {
      var highBits := (data & 0xF0) | rsState;
      var lowBits := ((data << 4) & 0xF0) | rsState;
      ghost var before := port.trace;
      Send4Bits(highBits);
      Send4Bits(lowBits);
      AppendAssoc(before, Send4BitsTrace(highBits), Send4BitsTrace(lowBits));
    }

    method Write(st: SendType)
      modifies port
      ensures port.trace == old(port.trace) + WriteTrace(st)
    {
      match st
      case Command(c) =>
        Send(c.Opcode(), 0x00);
        port.DelayUs(2000);
        SendsSingle(LcdTrait.CommandInstr(c.Opcode()), 2000);
      case Text(s) =>
        ghost var start := port.trace;
        for k := 0 to |s|
          invariant port.trace == start + Sends(LcdTrait.DataInstrs(LcdTrait.TextBytes(s[..k])), 80)
        {
          Send(CharByte(s[k]), RS);
          port.DelayUs(80);
          TextStep(start, s, k, port.trace);
        }
        assert s[..|s|] == s;
    }

    method Init()
      modifies port
      ensures port.trace == old(port.trace) + InitTrace()
    {
      ghost var t0 := port.trace;
      ghost var n3, n2 := Send4BitsTrace(0x03 << 4), Send4BitsTrace(0x02 << 4);
      Send4Bits(0x03 << 4);
      port.DelayUs(5000);
      AppendAssoc(t0, n3, [Wait(5000)]);
      Send4Bits(0x03 << 4);
      AppendAssoc(t0, n3 + [Wait(5000)], n3);
      port.DelayUs(160);
      AppendAssoc(t0, n3 + [Wait(5000)] + n3, [Wait(160)]);
      Send4Bits(0x03 << 4);
      AppendAssoc(t0, n3 + [Wait(5000)] + n3 + [Wait(160)], n3);
      port.DelayUs(160);
      AppendAssoc(t0, n3 + [Wait(5000)] + n3 + [Wait(160)] + n3, [Wait(160)]);
      Send4Bits(0x02 << 4);
      AppendAssoc(t0, n3 + [Wait(5000)] + n3 + [Wait(160)] + n3 + [Wait(160)], n2);
      port.DelayUs(10000);
      AppendAssoc(t0, n3 + [Wait(5000)] + n3 + [Wait(160)] + n3 + [Wait(160)] + n2, [Wait(10000)]);
      assert port.trace == t0 + InitNibbles();
      Write(Command(Fun4bits2line));
      AppendAssoc(t0, InitNibbles(), WriteTrace(Command(Fun4bits2line)));
      Write(Command(CursorOff));
      AppendAssoc(t0, InitNibbles() + WriteTrace(Command(Fun4bits2line)), WriteTrace(Command(CursorOff)));
      Write(Command(Clear));
      AppendAssoc(t0, InitNibbles() + WriteTrace(Command(Fun4bits2line)) + WriteTrace(Command(CursorOff)),
                  WriteTrace(Command(Clear)));
    }

    /** `set_cursor` as written: one command send of `LegacyCursorByte`, with no wait after it. */
    method SetCursor(line: u8, col: u8)
      modifies port
      ensures port.trace == old(port.trace) + SendTrace(LegacyCursorByte(line, col), 0x00)
    {
      var bits := if line == 1 then MoveLine1.Opcode() & (0x3F & col) else MoveLine1.Opcode() & (0x3F & col);
      Send(bits, 0x00);
    }
  }

  // ---------------------------------------------------------------- trace lemmas

  lemma SendsSingle(i: LcdTrait.Instr, wait: nat)
    ensures Sends([i], wait) == SendTrace(i.data, i.rs) + [Wait(wait)]
  {
    assert [i][..0] == [];
  }

  lemma {:induction false} SendsAppend(a: seq<LcdTrait.Instr>, b: seq<LcdTrait.Instr>, wait: nat)
    ensures Sends(a + b, wait) == Sends(a, wait) + Sends(b, wait)
    decreases |b|
  {
    if b == [] {
      assert a + b == a;
    } else {
      var front, last := b[..|b| - 1], b[|b| - 1];
      assert (a + b)[..|a + b| - 1] == a + front;
      SendsAppend(a, front, wait);
      var tail := SendTrace(last.data, last.rs) + [Wait(wait)];
      AppendAssoc(Sends(a, wait), Sends(front, wait), tail);
    }
  }

  /** One more send at the end of a sequence adds its trace and its wait at the end. */
  lemma SendsSnoc(prefix: seq<LcdTrait.Instr>, i: LcdTrait.Instr, wait: nat)
    ensures Sends(prefix + [i], wait) == Sends(prefix, wait) + SendTrace(i.data, i.rs) + [Wait(wait)]
  {
    assert (prefix + [i])[..|prefix|] == prefix;
  }

  /** One more character of `write(Text(s))` sent and waited for. */
  lemma TextStep(start: seq<PortEvent>, s: string, k: nat, t: seq<PortEvent>)
    requires k < |s|
    requires t == start + Sends(LcdTrait.DataInstrs(LcdTrait.TextBytes(s[..k])), 80) + SendTrace(CharByte(s[k]), RS) + [Wait(80)]
    ensures t == start + Sends(LcdTrait.DataInstrs(LcdTrait.TextBytes(s[..k + 1])), 80)
  {
    var prefix := LcdTrait.DataInstrs(LcdTrait.TextBytes(s[..k]));
    var i := LcdTrait.DataInstr(CharByte(s[k]));
    assert LcdTrait.TextBytes(s[..k + 1]) == LcdTrait.TextBytes(s[..k]) + [CharByte(s[k])];
    LcdTrait.DataInstrsSnoc(LcdTrait.TextBytes(s[..k]), CharByte(s[k]));
    SendsSnoc(prefix, i, 80);
    AppendAssoc(start + Sends(prefix, 80), SendTrace(i.data, i.rs), [Wait(80)]);
    AppendAssoc(start, Sends(prefix, 80), SendTrace(i.data, i.rs) + [Wait(80)]);
    AppendAssoc(Sends(prefix, 80), SendTrace(i.data, i.rs), [Wait(80)]);
  }

  /** Send number `k` of a sequence is followed by its wait, in order. */
  lemma {:induction false} SendsWaits(instrs: seq<LcdTrait.Instr>, wait: nat, k: nat)
    requires k < |instrs|
    ensures Sends(instrs, wait)[11 * k + 10] == Wait(wait)
    ensures Sends(instrs, wait)[11 * k .. 11 * k + 10] == SendTrace(instrs[k].data, instrs[k].rs)
    decreases |instrs|
  {
    var front, last := instrs[..|instrs| - 1], instrs[|instrs| - 1];
    var tail := SendTrace(last.data, last.rs) + [Wait(wait)];
    assert Sends(instrs, wait) == Sends(front, wait) + tail;
    if k < |front| {
      SendsWaits(front, wait, k);
      assert Sends(instrs, wait)[11 * k .. 11 * k + 10] == Sends(front, wait)[11 * k .. 11 * k + 10];
    } else {
      assert Sends(instrs, wait)[11 * k .. 11 * k + 10] == tail[..10];
    }
  }

  /** `write(Command(c))` is one send of the opcode with RS low followed by 2000 µs; `write(Text(s))` is one
      send per character, of its code with RS high, each followed by 80 µs. */
  lemma WriteSchedule(st: SendType, k: nat)
    requires k < |Instrs(st)|
    ensures |WriteTrace(st)| == 11 * |Instrs(st)|
    ensures WriteTrace(st)[11 * k + 10] == Wait(if st.Command? then 2000 else 80)
    ensures st.Command? ==> WriteTrace(st)[..10] == SendTrace(st.cmd.Opcode(), 0x00)
    ensures st.Text? ==> WriteTrace(st)[11 * k .. 11 * k + 10] == SendTrace(CharByte(st.text[k]), RS)
  {
    SendsWaits(Instrs(st), PostWait(st), k);
  }

  // ---------------------------------------------------------------- what the controller receives

  /** The one-byte interface seen as a bus: each byte drives the config lines (RS bit 0, EN bit 2) and the
      data lines (bits 4-7) at once. */
  function AsBus(t: seq<PortEvent>): (b: seq<Interfaces.Event>)
    ensures |b| == |t|
  {
    seq(|t|, k requires 0 <= k < |t| =>
      if t[k].Out? then Interfaces.Event.Send(t[k].byte, t[k].byte) else Interfaces.Event.Delay(t[k].us))
  }

  /** Event `k` of the bus view: a byte written becomes a write of that byte to both the config and the data
      lines, and a wait stays a wait of the same length. */
  lemma AsBusAt(t: seq<PortEvent>, k: nat)
    requires k < |t|
    ensures t[k].Out? ==> AsBus(t)[k] == Interfaces.Event.Send(t[k].byte, t[k].byte)
    ensures t[k].Wait? ==> AsBus(t)[k] == Interfaces.Event.Delay(t[k].us)
  {
  }

  lemma AsBusAppend(a: seq<PortEvent>, b: seq<PortEvent>)
    ensures AsBus(a + b) == AsBus(a) + AsBus(b)
  {
  }

  lemma TransactionShape(d: u8)
    ensures AsBus(Send4BitsTrace(d))
         == [Interfaces.Event.Send(d, d)] + ([Interfaces.Event.Send(d | EN, d | EN)] + ([Interfaces.Event.Delay(5)]
          + ([Interfaces.Event.Send(d, d)] + ([Interfaces.Event.Delay(5)] + []))))
  {
  }

  /** A nibble transaction of the older driver, from a low Enable line: the falling edge of its third write
      samples `d`, and the line is low again afterwards. A byte that already has EN set would break this. */
  lemma TransactionStrobe(d: u8)
    requires d & EN == 0
    ensures Sampled(AsBus(Send4BitsTrace(d)), EN, false) == [Strobe(d & RS != 0, d & 0xF0)]
    ensures !Level(AsBus(Send4BitsTrace(d)), EN, false)
  {
    var t4 := [Interfaces.Event.Delay(5)] + [];
    var t3 := [Interfaces.Event.Send(d, d)] + t4;
    var t2 := [Interfaces.Event.Delay(5)] + t3;
    var t1 := [Interfaces.Event.Send(d | EN, d | EN)] + t2;
    TransactionShape(d);
    SampledIdle(5, [], EN, false);
    SampledFall(d, d, t4, EN);
    SampledIdle(5, t3, EN, true);
    SampledRaise(d | EN, d | EN, t2, EN, false);
    SampledStayLow(d, d, t1, EN);
  }

  /** The RS values `send` is called with leave the data nibble and EN alone (the driver passes 0 and RS). */
  predicate RsClear(instrs: seq<LcdTrait.Instr>)
  {
    forall k :: 0 <= k < |instrs| ==> instrs[k].rs & 0xF4 == 0
  }

  /** The two bytes of a `send` keep EN low, carry RS from `rs` and the data lines from the nibble. */
  lemma NibbleBytes(d: u8, rs: u8)
    requires rs & 0xF4 == 0
    ensures HighBits(d, rs) & EN == 0 && LowBits(d, rs) & EN == 0
    ensures (HighBits(d, rs) & RS != 0) == (rs & RS != 0) && (LowBits(d, rs) & RS != 0) == (rs & RS != 0)
    ensures HighBits(d, rs) & 0xF0 == d & 0xF0 && LowBits(d, rs) & 0xF0 == (d << 4) & 0xF0
  {
  }

  /** A nibble transaction followed by anything, from a low line: one strobe, then the rest from a low line. */
  lemma TransactionThen(d: u8, rest: seq<PortEvent>)
    requires d & EN == 0
    ensures Sampled(AsBus(Send4BitsTrace(d) + rest), EN, false)
         == [Strobe(d & RS != 0, d & 0xF0)] + Sampled(AsBus(rest), EN, false)
    ensures Level(AsBus(Send4BitsTrace(d) + rest), EN, false) == Level(AsBus(rest), EN, false)
  {
    TransactionStrobe(d);
    AsBusAppend(Send4BitsTrace(d), rest);
    SampledAppend(AsBus(Send4BitsTrace(d)), AsBus(rest), EN, false);
  }

  /** Two nibble transactions in a row, from a low line: their two strobes, then the rest from a low line. */
  lemma TwoTransactionsThen(hb: u8, lb: u8, rest: seq<PortEvent>)
    requires hb & EN == 0 && lb & EN == 0
    ensures Sampled(AsBus(Send4BitsTrace(hb) + Send4BitsTrace(lb) + rest), EN, false)
         == [Strobe(hb & RS != 0, hb & 0xF0), Strobe(lb & RS != 0, lb & 0xF0)] + Sampled(AsBus(rest), EN, false)
    ensures Level(AsBus(Send4BitsTrace(hb) + Send4BitsTrace(lb) + rest), EN, false) == Level(AsBus(rest), EN, false)
  {
    AppendAssoc(Send4BitsTrace(hb), Send4BitsTrace(lb), rest);
    TransactionThen(hb, Send4BitsTrace(lb) + rest);
    TransactionThen(lb, rest);
    AppendAssoc([Strobe(hb & RS != 0, hb & 0xF0)], [Strobe(lb & RS != 0, lb & 0xF0)], Sampled(AsBus(rest), EN, false));
  }

  /** One `send`, from a low Enable line, delivers the high and then the low nibble and leaves the line low
      for whatever follows. */
  lemma SendStrobes(d: u8, rs: u8, rest: seq<PortEvent>)
    requires rs & 0xF4 == 0
    ensures Sampled(AsBus(SendTrace(d, rs) + rest), EN, false)
         == [Strobe(rs & RS != 0, d & 0xF0), Strobe(rs & RS != 0, (d << 4) & 0xF0)] + Sampled(AsBus(rest), EN, false)
    ensures Level(AsBus(SendTrace(d, rs) + rest), EN, false) == Level(AsBus(rest), EN, false)
  {
    NibbleBytes(d, rs);
    TwoTransactionsThen(HighBits(d, rs), LowBits(d, rs), rest);
  }

  /** A wait samples nothing. */
  lemma WaitIdle(us: nat)
    ensures Sampled(AsBus([Wait(us)]), EN, false) == [] && !Level(AsBus([Wait(us)]), EN, false)
  {
    assert AsBus([Wait(us)]) == [Interfaces.Event.Delay(us)] + [];
    SampledIdle(us, [], EN, false);
  }

  /** A sequence of sends, from a low Enable line, delivers each send's two nibbles in order and leaves the
      line low. */
  lemma {:induction false} SendsStrobes(instrs: seq<LcdTrait.Instr>, wait: nat)
    requires RsClear(instrs)
    ensures Sampled(AsBus(Sends(instrs, wait)), EN, false) == Delivery.NibbleStrobes(instrs)
    ensures !Level(AsBus(Sends(instrs, wait)), EN, false)
    decreases |instrs|
  {
    if instrs != [] {
      var front, last := instrs[..|instrs| - 1], instrs[|instrs| - 1];
      assert RsClear(front);
      SendsStrobes(front, wait);
      var tail := SendTrace(last.data, last.rs) + [Wait(wait)];
      AppendAssoc(Sends(front, wait), SendTrace(last.data, last.rs), [Wait(wait)]);
      assert Sends(instrs, wait) == Sends(front, wait) + tail;
      AsBusAppend(Sends(front, wait), tail);
      SampledAppend(AsBus(Sends(front, wait)), AsBus(tail), EN, false);
      SendStrobes(last.data, last.rs, [Wait(wait)]);
      WaitIdle(wait);
      assert Sampled(AsBus(tail), EN, false)
          == [Strobe(last.rs & RS != 0, last.data & 0xF0), Strobe(last.rs & RS != 0, (last.data << 4) & 0xF0)];
    }
  }

  /** The older driver's framing is correct too: from a low Enable line, the controller reassembles exactly
      the bytes sent, in order, each to the register its RS selects. */
  lemma SendsDelivery(instrs: seq<LcdTrait.Instr>, wait: nat)
    requires RsClear(instrs)
    ensures Reassemble(Sampled(AsBus(Sends(instrs, wait)), EN, false)) == Delivery.Delivered(instrs)
  {
    SendsStrobes(instrs, wait);
    Delivery.NibbleStrobesReassemble(instrs);
  }

  /** `write(Command(c))` delivers the opcode as a command; `write(Text(s))` delivers the character codes, in
      order, as data. */
  lemma WriteDelivery(st: SendType)
    ensures st.Command? ==> Reassemble(Sampled(AsBus(WriteTrace(st)), EN, false)) == [Received(false, st.cmd.Opcode())]
    ensures st.Text? ==>
      Reassemble(Sampled(AsBus(WriteTrace(st)), EN, false))
      == seq(|st.text|, k requires 0 <= k < |st.text| => Received(true, CharByte(st.text[k])))
  {
    SendsDelivery(Instrs(st), PostWait(st));
  }

  /** A wait followed by anything, from a low line, samples only what follows. */
  lemma WaitThen(us: nat, rest: seq<PortEvent>)
    ensures Sampled(AsBus([Wait(us)] + rest), EN, false) == Sampled(AsBus(rest), EN, false)
    ensures Level(AsBus([Wait(us)] + rest), EN, false) == Level(AsBus(rest), EN, false)
  {
    AsBusAppend([Wait(us)], rest);
    assert AsBus([Wait(us)]) == [Interfaces.Event.Delay(us)];
    SampledIdle(us, AsBus(rest), EN, false);
  }

  /** The nibble part of `init` followed by `rest`, grouped from the right. */
  lemma InitNibblesShape(rest: seq<PortEvent>)
    ensures InitNibbles() + rest
         == Send4BitsTrace(0x30) + ([Wait(5000)] + (Send4BitsTrace(0x30) + ([Wait(160)]
          + (Send4BitsTrace(0x30) + ([Wait(160)] + (Send4BitsTrace(0x20) + ([Wait(10000)] + rest)))))))
  {
  }

  /** The sends of the three `write`s at the end of `init`. */
  function InitCommandInstrs(): seq<LcdTrait.Instr>
  {
    [LcdTrait.CommandInstr(Fun4bits2line.Opcode()), LcdTrait.CommandInstr(CursorOff.Opcode()),
     LcdTrait.CommandInstr(Clear.Opcode())]
  }

  /** The three `write`s of `init` are one sequence of command sends, each followed by 2000 µs. */
  lemma InitTraceSplit()
    ensures InitTrace() == InitNibbles() + Sends(InitCommandInstrs(), 2000)
  {
    var c := InitCommandInstrs();
    var w1, w2, w3 := WriteTrace(Command(Fun4bits2line)), WriteTrace(Command(CursorOff)), WriteTrace(Command(Clear));
    SendsAppend([c[0]], [c[1]], 2000);
    SendsAppend([c[0], c[1]], [c[2]], 2000);
    assert [c[0]] + [c[1]] == [c[0], c[1]] && [c[0], c[1]] + [c[2]] == c;
    AppendAssoc(InitNibbles() + w1, w2, w3);
    AppendAssoc(InitNibbles(), w1, w2 + w3);
    AppendAssoc(w1, w2, w3);
  }

  /** From a low line, the nibble part of `init` delivers 0x3, 0x3, 0x3, 0x2 as commands and leaves the line low. */
  lemma InitNibblesThen(rest: seq<PortEvent>)
    ensures Sampled(AsBus(InitNibbles() + rest), EN, false)
         == [Strobe(false, 0x30), Strobe(false, 0x30), Strobe(false, 0x30), Strobe(false, 0x20)]
            + Sampled(AsBus(rest), EN, false)
  {
    InitNibblesShape(rest);
    var r1 := [Wait(10000)] + rest;
    var r2 := Send4BitsTrace(0x20) + r1;
    var r3 := [Wait(160)] + r2;
    var r4 := Send4BitsTrace(0x30) + r3;
    var r5 := [Wait(160)] + r4;
    var r6 := Send4BitsTrace(0x30) + r5;
    var r7 := [Wait(5000)] + r6;
    WaitThen(10000, rest);
    TransactionThen(0x20, r1);
    WaitThen(160, r2);
    TransactionThen(0x30, r3);
    WaitThen(160, r4);
    TransactionThen(0x30, r5);
    WaitThen(5000, r6);
    TransactionThen(0x30, r7);
  }

  /** From a low Enable line, `init` delivers the nibbles 0x3, 0x3, 0x3, 0x2 as commands, then the strobes of
      its three command sends. */
  lemma InitDelivery()
    ensures Sampled(AsBus(InitTrace()), EN, false)
         == [Strobe(false, 0x30), Strobe(false, 0x30), Strobe(false, 0x30), Strobe(false, 0x20)]
            + Delivery.NibbleStrobes(InitCommandInstrs())
  {
    InitTraceSplit();
    InitNibblesThen(Sends(InitCommandInstrs(), 2000));
    SendsStrobes(InitCommandInstrs(), 2000);
  }

  /** Those strobes reassemble into the commands 0x28 (4-bit, two lines), 0x0C (display on, cursor off) and
      0x01 (clear). */
  lemma InitCommandsDelivered()
    ensures Reassemble(Delivery.NibbleStrobes(InitCommandInstrs()))
         == [Received(false, 0x28), Received(false, 0x0C), Received(false, 0x01)]
  {
    Delivery.NibbleStrobesReassemble(InitCommandInstrs());
  }

  /** `set_cursor` as written delivers the command 0x00 whatever the line and column, instead of a Set DDRAM
      Address instruction; the trait driver's corrected `SetCursorCommand` would give 0xC5 for line 2, col 5. */
  lemma SetCursorIgnoresPosition(line: u8, col: u8)
    ensures Reassemble(Sampled(AsBus(SendTrace(LegacyCursorByte(line, col), 0x00)), EN, false)) == [Received(false, 0x00)]
    ensures LegacyCursorByte(2, 5) == 0x00 && LcdTrait.SetCursorCommand(2, 5) == 0xC5
  {
    SendStrobes(0x00, 0x00, []);
    assert SendTrace(0x00, 0x00) + [] == SendTrace(0x00, 0x00);
    ReassembleSnoc([], Strobe(false, 0x00), Strobe(false, 0x00));
  }
}
