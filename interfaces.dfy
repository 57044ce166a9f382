/** The transports of the trait-based driver: the control-bit masks, the `Interface` a driver sends through
    (recorded together with the delay provider as one trace), the parallel GPIO wiring and the I2C backpack. */
module Interfaces {
  import opened Bytes

  const EN: u8 := 0x04
  /** `_RW` in the source: no operation reads from the display. */
  const RW: u8 := 0x02
  const RS: u8 := 0x01

  /** `I2C_ADDRESS` (deprecated): the address of the LCM1602 IIC module. */
  const I2C_ADDRESS: u8 := 0x27

  /** RS, RW and EN are three different single-bit masks. */
  lemma ControlMasksAreSingleBits()
    ensures RS & (RS - 1) == 0 && RW & (RW - 1) == 0 && EN & (EN - 1) == 0
    ensures RS != 0 && RW != 0 && EN != 0
    ensures RS & RW == 0 && RS & EN == 0 && RW & EN == 0
  {
  }

  /** One call the driver makes: `Interface::send(config, data)` or `DelayUs::delay_us(us)`. */
  datatype Event = Send(config: u8, data: u8) | Delay(us: nat)

  /** The interface a driver is generic over, together with the delay provider it is handed, observed as the
      trace of calls in the order they are made. The physical effect of a call is the transport's business. */
  class Wire {
    var trace: seq<Event>

    constructor ()
      ensures trace == []
    {
      trace := [];
    }

    method Send(config: u8, data: u8)
      modifies this
      ensures trace == old(trace) + [Event.Send(config, data)]
    {
      trace := trace + [Event.Send(config, data)];
    }

    method DelayUs(us: nat)
      modifies this
      ensures trace == old(trace) + [Delay(us)]
    {
      trace := trace + [Delay(us)];
    }
  }

  // ---------------------------------------------------------------- parallel wiring

  /** The seven output pins of `Parallel`: four data lines (D4-D7 of the display), RS and two enables. */
  datatype Pin = D1 | D2 | D3 | D4 | RsPin | EnPin | En2Pin

  /** One `set_high` (high true) or `set_low` (high false) on a pin. */
  datatype PinWrite = PinWrite(pin: Pin, high: bool)

  /** The pin writes of one `Parallel::send(config, data)`, in the order the source issues them. */
  function PinWrites(config: u8, data: u8): (w: seq<PinWrite>)
    ensures |w| == 7
    ensures forall k :: 0 <= k < 4 ==> w[k].pin == DataPin(k)
    ensures w[4].pin == RsPin && w[5].pin == EnPin && w[6].pin == En2Pin
  {
    [ PinWrite(D1, data & 0x10 != 0), PinWrite(D2, data & 0x20 != 0),
      PinWrite(D3, data & 0x40 != 0), PinWrite(D4, data & 0x80 != 0),
      PinWrite(RsPin, config & 0x01 != 0), PinWrite(EnPin, config & 0x04 != 0),
      PinWrite(En2Pin, config & 0x08 != 0) ]
  }

  /** The data pin wired to bit `k + 4` of the data byte. */
  function DataPin(k: nat): Pin
    requires k < 4
  {
    [D1, D2, D3, D4][k]
  }

  /** The position of `p`'s write among the seven. */
  function PinOrder(p: Pin): nat
  {
    match p
    case D1 => 0
    case D2 => 1
    case D3 => 2
    case D4 => 3
    case RsPin => 4
    case EnPin => 5
    case En2Pin => 6
  }

  /** Each call writes every one of the seven pins exactly once. */
  lemma PinWritesCoverEachPinOnce(config: u8, data: u8)
    ensures |PinWrites(config, data)| == 7
    ensures forall i, j :: 0 <= i < j < 7 ==> PinWrites(config, data)[i].pin != PinWrites(config, data)[j].pin
    ensures forall p: Pin :: PinOrder(p) < 7 && PinWrites(config, data)[PinOrder(p)].pin == p
  {
  }

  /** Data pin `k` goes high exactly when data bit `k + 4` is set; RS follows config bit 0, EN config bit 2
      and EN2 config bit 3. */
  lemma PinLevels(config: u8, data: u8, k: nat)
    requires k < 4
    ensures PinWrites(config, data)[k] == PinWrite(DataPin(k), (data >> (k as bv8 + 4)) & 1 == 1)
    ensures PinWrites(config, data)[4] == PinWrite(RsPin, config & RS != 0)
    ensures PinWrites(config, data)[5] == PinWrite(EnPin, config & EN != 0)
    ensures PinWrites(config, data)[6] == PinWrite(En2Pin, (config >> 3) & 1 == 1)
  {
  }

  /** The pins depend only on the data's high nibble and on config bits 0, 2 and 3 (RW, bit 1, is not wired). */
  lemma PinWritesDependOnlyOnWiredBits(config: u8, data: u8)
    ensures PinWrites(config, data) == PinWrites(config & 0x0D, data & 0xF0)
  {
  }

  /** `Parallel`: drives its seven pins one after another; `writes` is every pin write so far, in order. */
  class Parallel {
    var writes: seq<PinWrite>

    constructor ()
      ensures writes == []
    {
      writes := [];
    }

    /** `OutputPin::set_high`; its `Result` is discarded by the caller. */
    method SetHigh(pin: Pin)
      modifies this
      ensures writes == old(writes) + [PinWrite(pin, true)]
    {
      writes := writes + [PinWrite(pin, true)];
    }

    /** `OutputPin::set_low`. */
    method SetLow(pin: Pin)
      modifies this
      ensures writes == old(writes) + [PinWrite(pin, false)]
    {
      writes := writes + [PinWrite(pin, false)];
    }

    /** One `if … { set_high } else { set_low }` step of `send`. */
    method Drive(pin: Pin, high: bool)
      modifies this
      ensures writes == old(writes) + [PinWrite(pin, high)]
    {
      if high { SetHigh(pin); } else { SetLow(pin); }
    }

    method Send(config: u8, data: u8)
      modifies this
      ensures writes == old(writes) + PinWrites(config, data)
    {
      ghost var before := writes;
      ghost var w := PinWrites(config, data);
      Drive(D1, data & 0x10 != 0);
      Drive(D2, data & 0x20 != 0);
      Drive(D3, data & 0x40 != 0);
      Drive(D4, data & 0x80 != 0);
      assert writes == before + w[..4];
      Drive(RsPin, config & 0x01 != 0);
      Drive(EnPin, config & 0x04 != 0);
      Drive(En2Pin, config & 0x08 != 0);
      assert writes == before + w[..4] + w[4..];
      assert w[..4] + w[4..] == w;
    }
  }

  // ---------------------------------------------------------------- I2C backpack

  /** The byte the I2C backpack receives for `send(config, data)`: RS/RW/EN in bits 0-2, the backlight in
      bit 3 and the data's high nibble in bits 4-7. */
  function PackByte(config: u8, data: u8): (b: u8)
    ensures b & 0x08 == 0x08
    ensures b & 0xF0 == data & 0xF0
    ensures b & 0x07 == config & 0x07
  {
    (config & 0x07) | (data & 0xF0) | 0x08
  }

  /** Enable bits above EN (a second panel's enable) are dropped, and so is the data's low nibble. */
  lemma PackByteDropsUnwiredBits(config: u8, data: u8)
    ensures PackByte(config, data) == PackByte(config & 0x07, data & 0xF0)
    ensures PackByte(config, data) & EN == config & EN
    ensures PackByte(config, data) & RS == config & RS
  {
  }

  /** One `I2c::write(addr, &[byte])`. */
  datatype I2cWrite = I2cWrite(addr: u8, byte: u8)

  /** `I2C`: the bus handle is represented by the writes made on it. */
  class I2C {
    const addr: u8
    var writes: seq<I2cWrite>

    constructor (addr: u8)
      ensures this.addr == addr && writes == []
    {
      this.addr := addr;
      writes := [];
    }

    method Send(config: u8, data: u8)
      modifies this
      ensures writes == old(writes) + [I2cWrite(addr, PackByte(config, data))]
    {
      var byte := (config & 0x07) | (data & 0xF0) | 0x08;
      writes := writes + [I2cWrite(addr, byte)];
    }
  }
}
