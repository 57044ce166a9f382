/** The older interfaces file: the same control-bit masks and an I2C backpack whose byte packing does not
    mask the data. */
module LegacyInterfaces {
  import opened Bytes

  const EN: u8 := 0x04
  /** `_RW` in the source: no operation reads from the display. */
  const RW: u8 := 0x02
  const RS: u8 := 0x01
  const I2C_ADDRESS: u8 := 0x27

  /** RS, RW and EN are three different single-bit masks. */
  lemma ControlMasksAreSingleBits()
    ensures RS & (RS - 1) == 0 && RW & (RW - 1) == 0 && EN & (EN - 1) == 0
    ensures RS != 0 && RW != 0 && EN != 0
    ensures RS & RW == 0 && RS & EN == 0 && RW & EN == 0
  {
  }

  /** The byte this backpack receives: config bits 0-2, the backlight bit 3, and every bit of the data. */
  function PackByte(config: u8, data: u8): (b: u8)
    ensures b & 0x08 == 0x08
    ensures b & data == data
    ensures b & 0xF0 == data & 0xF0
    ensures b & 0x07 == (config | data) & 0x07
  {
    ((config & 0x07) | data) | 0x08
  }

  /** Config bits above bit 2 are discarded. */
  lemma PackByteDropsHighConfig(config: u8, data: u8)
    ensures PackByte(config, data) == PackByte(config & 0x07, data)
  {
  }

  /** Unlike the newer backpack, a data byte with a low-nibble bit reaches the control lines: data 0x04
      raises EN even when config leaves it low. */
  lemma DataCanRaiseEnable()
    ensures PackByte(0x00, 0x04) & EN != 0
  {
  }

  datatype I2cWrite = I2cWrite(addr: u8, byte: u8)

  class I2C {
    const addr: u8
    var writes: seq<I2cWrite>

    constructor (addr: u8)
      ensures this.addr == addr && writes == []
    {
      this.addr := addr;
      writes := [];
    }

    /** One write, to the address stored by the constructor. */
    method Send(config: u8, data: u8)
      modifies this
      ensures writes == old(writes) + [I2cWrite(addr, PackByte(config, data))]
    {
      var byte := (config & 0x07) | data;
      writes := writes + [I2cWrite(addr, byte | 0x08)];
    }
  }
}
