# liquid_crystal: an HD44780 character-LCD driver, modelled in Dafny

This project models the core of the `liquid_crystal` Rust crate, which drives HD44780-compatible character
LCDs, and proves properties of that model. It covers:

- **The 4-bit bus framer.** `LiquidCrystal4Bits` in `src/lcd_bus.rs` splits every byte into two nibble
  transactions. Each transaction puts the nibble on the data lines three times while the selected enable
  lines go high, low, then high again. The framer also holds the enable selector (`select_display`, `echo`)
  and the power-on nibble sequence (`init`).
- **The display operations.** These are the default methods of the `LiquidCrystal` trait in
  `src/lcd_trait/mod.rs`: `write` (commands, text, custom-character slots), `set_cursor`, `custom_char`
  and `fast_config`.
- **The instruction encodings.** The command opcodes of `src/lcd_trait/commands.rs`, the configuration
  flags and `DEFALT_CONFIG` of `src/fast_config/mod.rs`, and the DDRAM line layouts of
  `src/lcd_trait/layout.rs`.
- **The transports.** The parallel pin driver and the I2C backpack encoder of
  `src/lcd_trait/interfaces/mod.rs`, plus the older I2C encoder of `src/lcd_trait/interfaces.rs`.
- **The older single-file driver.** `LiquidCristal` of `src/lib.rs`, which talks to a one-argument
  interface: each byte carries RS in bit 0, EN in bit 2 and the nibble in bits 4-7.

Bytes are `bv8`, because Rust's `u8` shifts drop the bits pushed out exactly as `bv8` shifts do. Delays are
natural numbers of microseconds.

The interface and the delay provider are one recorder object so that their calls keep their relative
order. `Interfaces.Wire` records `Send(config, data)` and `Delay(us)` events, and `LegacyDriver.Port`
records `Out(byte)` and `Wait(us)` events. Each driver method is proved to append exactly the trace that
a pure function of its inputs and of the enable selector describes. The properties the source promises
are then proved about those functions.

On top of this sits a reference model of the receiving chip, the `Hd44780` module:

- The chip samples RS and D4-D7 on every falling edge of its Enable line (`Sampling.Sampled`).
- It pairs the samples into bytes, high nibble first (`Hd44780.Reassemble`).

`Delivery.FourBitDelivery` proves the framer correct against that model while the selector stays fixed. A
controller on any enable line that the selector covers reassembles exactly the bytes that were sent, in
order, each to the register its RS selects. This holds whatever the line's level was before. Changing the
selector between sends is another matter; see the note on `select_display` below. `LegacyDriver.SendsDelivery` proves the same
for the older driver's low-high-low strobe, starting from a low Enable line.

Modules: `Bytes`, `Seqs` (sequence helpers), `Commands`, `Flags`, `Layouts`, `Interfaces`,
`LegacyInterfaces`, `LcdTrait`, `Hd44780`, `LcdBus`, `Sampling`, `Delivery`, `LegacyDriver`.

Notes on the code's behaviour, which the model keeps as written:

- Strobe polarity. Within a transaction the framer drives the selected Enable lines high, low, high,
  not the usual HD44780 low, high, low. `Delivery.Send4BitsStrobe` shows this still produces exactly one
  falling edge per transaction.
- Post-delays. `send` waits 5 µs after data and 2000 µs after a command. Its own comments give the
  chip's needs as about 1 µs between data writes, about 40 µs for most commands and 1.5 ms for Clear
  and Return Home (`src/lcd_bus.rs:68-70`).
- `set_cursor`. It takes a 1-based line: line 1 selects 0x80, and every other value, 0 included, selects
  0xC0. It adds
  `col & 0x3F` and never looks at a `Layout` or checks bounds.
- `init`. The framer's `init` sends only a 150 µs wait and the four nibbles. Setting the function,
  clearing and applying defaults are left to the caller (`fast_config`).
- `select_display`. Only displays 0 and 1 reach a wired enable line (EN and EN2). For 4 and 5 the
  selector lands on config bits 6 and 7, and for 6 and 7 the `u8` shift `corrent_enable << 2` drops the
  bit, so no Enable line is pulsed at all (`Delivery.SelectedLines`).
- Changing the selector. The high-low-high strobe leaves every selected Enable line high after a send.
  When `select_display` or `echo` then drops a line, the next send's first write pulls it low, and that
  falling edge latches a stray nibble on the panel that was deselected (`Delivery.DeselectedSend`). After
  a character to panel 0, one to panel 1 and then another to panel 0, panel 0's nibble pairing is off by
  one: it shows a character made of the high nibble meant for panel 1 and the high nibble of its
  own next character (`Delivery.SelectorChangeStrayStrobe`, `Delivery.SelectorChangeMisaligns`).

## Model

| member | source | states |
|---|---|---|
| Commands.OpcodesDistinct | src/lcd_trait/commands.rs:3-12 | two commands have the same opcode exactly when they are the same command |
| Commands.ClearAndReturnHome | src/lcd_trait/commands.rs:4-5 | Clear is 0x01 and Reset (Return Home) is 0x02 |
| Commands.ShiftOpcodeLayout | src/lcd_trait/commands.rs:6-9 | each shift opcode is 0x10, plus 0x08 for display shifts and 0x04 for rightward shifts; bits 0-1 and 5-7 are clear |
| Commands.ShiftOpcodesExactly | src/lcd_trait/commands.rs:6-9 | a byte is some shift command's opcode if and only if it is one of 0x10, 0x14, 0x18, 0x1C |
| Commands.LineOpcodes | src/lcd_trait/commands.rs:10-11 | MoveLine1 is 0x80 and MoveLine2 is 0xC0; both have bit 7 set and they differ by 0x40 |
| Flags.EntryModeFlagsDisjoint | src/fast_config/mod.rs:1-11 | ShiftConfig can set only bit 1 and ShiftState only bit 0, so they never overlap |
| Flags.DisplayFlagsDisjoint | src/fast_config/mod.rs:13-29 | Display can set only bit 2, Cursor only bit 1 and Blink only bit 0; the three are pairwise disjoint |
| Flags.ShiftFlagsDisjoint | src/fast_config/mod.rs:31-41 | ShiftMode can set only bit 3 and ShiftDirection only bit 2 |
| Flags.FunctionFlagsDisjoint | src/fast_config/mod.rs:43-58 | Bits::Four is 0; DisplayLines can set only bit 3 and CharSize only bit 2 |
| Flags.DefaultVariantsAreZero | src/fast_config/mod.rs:1-58 | every off or default variant (Decrement, each Off, ShiftCursor, Left, Four, One, C5X8) has discriminant 0 |
| LcdTrait.DefaultConfigBytes | src/fast_config/mod.rs:67-72 | DEFALT_CONFIG encodes to the entry-mode byte 0x04, the display-control byte 0x0F and the function-set byte 0x28 |
| Layouts.LCD16X2Shape | src/lcd_trait/layout.rs:5-7 | 16 columns, 2 lines, base addresses 0x80 and 0xC0; every base has bit 7 set and base + column never passes 0xFF |
| Layouts.LCD20X4Shape | src/lcd_trait/layout.rs:9-11 | 20 columns, 4 lines, base addresses 0x80, 0xC0, 0x94, 0xD4; every base has bit 7 set and base + column never passes 0xFF |
| Layouts.LCD20X4LinesDisjoint | src/lcd_trait/layout.rs:9-11 | no address lies on two different lines of the 20x4 layout; line 3 starts where line 1 ends and line 4 where line 2 ends |
| Interfaces.ControlMasksAreSingleBits | src/lcd_trait/interfaces/mod.rs:7-9 | RS, _RW and EN are non-zero, single-bit and pairwise disjoint |
| Interfaces.Wire.Send | src/lcd_trait/interfaces/mod.rs:14-16 | a call on the interface appends exactly one Send(config, data) event to the recorded trace |
| Interfaces.Wire.DelayUs | src/lcd_bus.rs:23-25 | a delay call appends exactly one Delay(us) event to the recorded trace |
| Interfaces.PinWritesCoverEachPinOnce | src/lcd_trait/interfaces/mod.rs:78-120 | one send makes seven pin writes, and each of the seven pins is written exactly once |
| Interfaces.PinLevels | src/lcd_trait/interfaces/mod.rs:79-119 | d1-d4 are driven high exactly when data bits 4-7 are set, rs exactly when config bit 0 is set, en exactly when config bit 2 is set and en2 exactly when config bit 3 is set |
| Interfaces.PinWritesDependOnlyOnWiredBits | src/lcd_trait/interfaces/mod.rs:78-120 | the pin writes depend only on `config & 0x0D` and `data & 0xF0` |
| Interfaces.PinWrites | src/lcd_trait/interfaces/mod.rs:78-120 | one send is seven pin writes: d1-d4 first, in data-bit order, then rs, en and en2 |
| Interfaces.Parallel.constructor | src/lcd_trait/interfaces/mod.rs:47-65 | a new parallel driver has written no pins |
| Interfaces.Parallel.Send | src/lcd_trait/interfaces/mod.rs:78-120 | `send` appends exactly the seven pin writes, in the source's order |
| Interfaces.PackByte | src/lcd_trait/interfaces/mod.rs:136 | the backpack byte has bit 3 (backlight) set, bits 4-7 equal to data's high nibble and bits 0-2 equal to config's low three bits |
| Interfaces.PackByteDropsUnwiredBits | src/lcd_trait/interfaces/mod.rs:136 | enable bits above EN and data bits 0-3 are dropped; EN and RS pass through unchanged |
| Interfaces.I2C.constructor | src/lcd_trait/interfaces/mod.rs:129-131 | the address is stored unchanged and nothing has been written yet |
| Interfaces.I2C.Send | src/lcd_trait/interfaces/mod.rs:135-138 | `send` writes exactly one byte, the packed byte, to the stored address |
| LegacyInterfaces.ControlMasksAreSingleBits | src/lcd_trait/interfaces.rs:5-7 | RS, _RW and EN are non-zero, single-bit and pairwise disjoint |
| LegacyInterfaces.PackByte | src/lcd_trait/interfaces.rs:122-123 | bit 3 is always set, every set bit of data appears in the byte, and bits 0-2 are config's bits 0-2 ORed with data's |
| LegacyInterfaces.PackByteDropsHighConfig | src/lcd_trait/interfaces.rs:122 | config bits above bit 2 are discarded |
| LegacyInterfaces.DataCanRaiseEnable | src/lcd_trait/interfaces.rs:122 | without the data mask, a data byte with bit 2 set raises EN on its own |
| LegacyInterfaces.I2C.constructor | src/lcd_trait/interfaces.rs:115-117 | the address is stored unchanged |
| LegacyInterfaces.I2C.Send | src/lcd_trait/interfaces.rs:121-124 | `send` writes exactly one byte, the packed byte, and every write targets the stored address |
| LcdTrait.DataInstrs | src/lcd_trait/mod.rs:52-56 | one data send per byte, in order, each with RS set |
| LcdTrait.WriteInstrs | src/lcd_trait/mod.rs:47-64 | a command is exactly one command send; text is one send per character; a custom-character slot is at most one send; and every send of text or of a slot has RS set |
| LcdTrait.SetCursorInstrs | src/lcd_trait/mod.rs:68-77 | `set_cursor` is exactly one command send, of a Set DDRAM Address byte (bit 7 set) |
| LcdTrait.CustomCharInstrs | src/lcd_trait/mod.rs:81-89 | `custom_char` is 10 sends with a valid slot and 1 otherwise, and always ends with Return Home (0x02) as a command |
| LcdTrait.EntryModeByte | src/lcd_trait/mod.rs:92 | the Entry Mode Set byte lies in 0x04..0x07 |
| LcdTrait.DisplayControlByte | src/lcd_trait/mod.rs:93 | the Display On/Off Control byte lies in 0x08..0x0F |
| LcdTrait.FunctionSetByte | src/lcd_trait/mod.rs:94 | the Function Set byte lies in 0x20..0x2C with bit 4 clear (4-bit bus) and bits 0-1 clear |
| LcdTrait.FastConfigInstrs | src/lcd_trait/mod.rs:91-97 | `fast_config` is five sends, all commands |
| LcdTrait.WriteCommandInstrs | src/lcd_trait/mod.rs:49-51 | `write(Command(c))` is exactly one send of c's opcode with RS low |
| LcdTrait.WriteTextInstrs | src/lcd_trait/mod.rs:52-56 | `write(Text(s))` is one send per character, in order, of the character code truncated to 8 bits, with RS set and no command interleaved |
| LcdTrait.WriteCustomCharInstrs | src/lcd_trait/mod.rs:57-61 | `write(CustomChar(slot))` is one data send of slot when slot < 8, and nothing otherwise |
| LcdTrait.SetCursorCommand | src/lcd_trait/mod.rs:68-73 | the byte is 0x80 + (col & 0x3F) on line 1 and 0xC0 + (col & 0x3F) otherwise, so it never passes 0xFF; bit 7 is always set, the low six bits are the column, and bit 6 is clear exactly on line 1 |
| LcdTrait.CgramAddressCommand | src/lcd_trait/mod.rs:83 | `0x40 \| (slot << 3)` equals 0x40 + 8·slot, lies in 0x40..0x78 and has its low three bits clear |
| LcdTrait.CustomCharSpec | src/lcd_trait/mod.rs:81-89 | with slot < 8, `custom_char` sends the CGRAM address command, then the 8 glyph rows as data in order, then Return Home; otherwise it sends only Return Home |
| LcdTrait.FastConfigSpec | src/lcd_trait/mod.rs:91-96 | `fast_config` sends exactly five commands: entry mode, display control, function set, Clear, Return Home; write_config does not affect them |
| LcdTrait.ConfigBytesDecode | src/lcd_trait/mod.rs:92-94 | each configuration byte carries its instruction bit (0x04, 0x08, 0x20), and each flag bit is set if and only if the corresponding flag is on |
| LcdTrait.ConfigBytesInjective | src/lcd_trait/mod.rs:92-94 | the three bytes determine the entry-mode, display and function-set flags (distinct configurations give distinct bytes) |
| LcdBus.Send4BitsEvents | src/lcd_bus.rs:19-26 | a transaction is five calls: the same data on every write; the first and third writes are equal; the middle write carries only rs, so it drops the enable bits; each of the last two writes is followed by 5 µs |
| LcdBus.PostDelay | src/lcd_bus.rs:67-71 | the wait after a send is 2000 µs exactly for a command (rs 0), and 5 µs for any nonzero rs |
| LcdBus.SendEvents | src/lcd_bus.rs:62-72 | a send is 11 calls, ending with its post-delay |
| LcdBus.InitEvents | src/lcd_bus.rs:28-41 | `init` is 25 calls, starting with the 150 µs delay and ending with the 10000 µs delay |
| LcdBus.SelectMask | src/lcd_bus.rs:44-46 | `1 << (e & 7)` has exactly one bit set, lies in {1, 2, 4, …, 128} and is bit number `e & 7` |
| LcdBus.Frame | src/lcd_bus.rs:62-72 | a sequence of sends produces 11 events per send |
| LcdBus.FrameAppend | src/lcd_trait/mod.rs:47-64 | the trace of two sequences of sends is the concatenation of their traces, which is what chaining `write(..).write(..)` amounts to |
| LcdBus.LiquidCrystal4Bits.constructor | src/lcd_bus.rs:15-17 | the enable selector starts at 1 |
| LcdBus.LiquidCrystal4Bits.Send4Bits | src/lcd_bus.rs:19-26 | appends Send(rs \| (ce << 2), d), Send(rs, d), Delay(5), Send(rs \| (ce << 2), d), Delay(5) with the same data throughout, and keeps the selector unchanged |
| LcdBus.LiquidCrystal4Bits.Init | src/lcd_bus.rs:28-42 | appends the 150 µs wait, the four nibble transactions and their waits, and keeps the selector unchanged |
| LcdBus.LiquidCrystal4Bits.SelectDisplay | src/lcd_bus.rs:44-46 | sets the selector to `1 << (e & 7)` and touches nothing on the bus |
| LcdBus.LiquidCrystal4Bits.Echo | src/lcd_bus.rs:48-50 | sets the selector to 0x0F and touches nothing on the bus |
| LcdBus.LiquidCrystal4Bits.Send | src/lcd_bus.rs:62-72 | appends the high-nibble transaction, the low-nibble transaction and the post-delay, and keeps the selector unchanged |
| LcdBus.LiquidCrystal4Bits.Write | src/lcd_trait/mod.rs:47-64 | appends exactly the framed sends of `WriteInstrs` (one per character for text, in order) |
| LcdBus.LiquidCrystal4Bits.WriteText | src/lcd_trait/mod.rs:52-56 | the text loop appends exactly the framed data sends of the characters, in order |
| LcdBus.LiquidCrystal4Bits.SetCursor | src/lcd_trait/mod.rs:68-77 | appends exactly one framed command send of `SetCursorCommand(line, col)` |
| LcdBus.LiquidCrystal4Bits.CustomChar | src/lcd_trait/mod.rs:81-89 | appends exactly the framed sends of `CustomCharInstrs` |
| LcdBus.LiquidCrystal4Bits.DefineGlyph | src/lcd_trait/mod.rs:82-87 | with a valid slot, appends the framed Set CGRAM Address command and then the 8 rows as data, in order |
| LcdBus.LiquidCrystal4Bits.FastConfig | src/lcd_trait/mod.rs:91-97 | appends exactly the framed sends of `FastConfigInstrs` |
| LcdBus.LiquidCrystal8Bits.constructor | src/lcd_bus.rs:55-57 | the enable selector starts at 1 and multiplex_level is stored unchanged |
| Hd44780.NibblesRecombine | src/lcd_bus.rs:63-66 | the high nibble `d & 0xF0` and the shifted low nibble `(d << 4) & 0xF0` recombine to d |
| Delivery.Send4BitsSchedule | src/lcd_bus.rs:19-26 | a transaction makes three writes (config, RS only, config) and waits 5 µs after the second and after the third |
| Delivery.SendSchedule | src/lcd_bus.rs:62-72 | `send` makes six writes, high nibble first, and then waits 5 µs after data or 2000 µs after a command |
| Delivery.InitSchedule | src/lcd_bus.rs:28-41 | `init` makes 12 writes, and its delays are 150 µs, then 5000, 160, 160 and 10000 µs after the four nibbles (with the transactions' own 5 µs waits) |
| Delivery.Send4BitsStrobe | src/lcd_bus.rs:19-26 | on a selected line, a transaction yields exactly one falling edge, which samples rs and the nibble, whatever the line's level before, and leaves the line high |
| Delivery.SendStrobes | src/lcd_bus.rs:62-66 | `send` delivers the high nibble and then the low nibble, with the same RS on both |
| Delivery.InitStrobes | src/lcd_bus.rs:30-40 | `init` delivers the nibbles 0x3, 0x3, 0x3, 0x2 with RS low |
| Delivery.FrameStrobes | src/lcd_bus.rs:62-72 | a sequence of sends delivers, in order, each send's two nibbles |
| Delivery.FourBitDelivery | src/lcd_bus.rs:62-72 | for a fixed selector, a controller on any selected enable line reassembles from the trace exactly the bytes sent, in order, each to the register its RS selects |
| Delivery.WriteTextDelivery | src/lcd_trait/mod.rs:52-56 | on the first panel, `write(Text(s))` delivers the character codes of s, in order, as data |
| Delivery.FastConfigDelivery | src/lcd_trait/mod.rs:91-97 | on the first panel, `fast_config` delivers its three configuration bytes, then Clear and Return Home, all as commands |
| Delivery.DeselectedNibble | src/lcd_bus.rs:19-26 | on a line the selector does not cover, a transaction samples its nibble once if the line was left high and nothing if it was low, and leaves the line low |
| Delivery.DeselectedSend | src/lcd_bus.rs:62-72 | on a deselected line, `send` yields one stray strobe carrying its high nibble if the line was left high, none otherwise, and leaves the line low |
| Delivery.SelectorChangeStrayStrobe | src/lcd_bus.rs:44-46 | a character to panel 0 and then, after `select_display(1)`, a character to panel 1 yield on panel 0 its own two nibbles and then the high nibble of panel 1's character |
| Delivery.SelectorChangeStrobes | src/lcd_bus.rs:44-46 | selecting panel 0 again, its next character's two nibbles follow that stray strobe |
| Delivery.SelectorChangeMisaligns | src/lcd_bus.rs:44-46 | panel 0 then reassembles its first character and a second one made of panel 1's high nibble and its own next high nibble |
| Delivery.SelectedLines | src/lcd_bus.rs:44-50 | a selected display k < 4 listens on config bit k + 2 (EN for panel 0, EN2 for panel 1), and `echo` covers both; for k >= 4 no wired enable bit is set, and for k >= 6 the shifted selector is 0 |
| LegacyDriver.OpcodesDistinct | src/lib.rs:10-21 | the older command set's discriminants are pairwise distinct |
| LegacyDriver.NibblesRestoreByte | src/lib.rs:59-64 | masking both nibble bytes with 0xF0 and recombining them restores d; both carry rs in their low half |
| LegacyDriver.Port.constructor | src/lib.rs:45-47 | a new driver's one-byte interface and delay provider have recorded nothing |
| LegacyDriver.Port.Send | src/lib.rs:51-54 | a call of the one-argument `send` appends exactly that byte to the trace |
| LegacyDriver.Port.DelayUs | src/lib.rs:53-55 | a `delay_us` call appends exactly that wait to the trace |
| LegacyDriver.Send4BitsTrace | src/lib.rs:50-56 | a transaction is d, then d with EN raised and nothing else changed, then d again, with 5 µs after each of the last two |
| LegacyDriver.HighBits | src/lib.rs:60 | the first byte of a send keeps rs in its low half and, for rs 0 or RS, carries d's high nibble in its high half |
| LegacyDriver.LowBits | src/lib.rs:61 | the second byte keeps rs in its low half and, for rs 0 or RS, carries d's low nibble in its high half |
| LegacyDriver.SendTrace | src/lib.rs:59-64 | a send is ten events, the two five-event transactions |
| LegacyDriver.SendTraceShape | src/lib.rs:59-64 | a send's first write is the high-nibble byte and its sixth the low-nibble byte, and each transaction ends with its 5 µs wait; with RS in the low four bits they carry d's high nibble and then its low nibble in bits 7-4 |
| LegacyDriver.Instrs | src/lib.rs:67-78 | a command is one command send; text is one send per character, each with RS set |
| LegacyDriver.PostWait | src/lib.rs:71-76 | the wait after each send is 2000 µs exactly for a command, and 80 µs for every character |
| LegacyDriver.Sends | src/lib.rs:67-81 | a sequence of sends is 11 events per send; `LegacyDriver.SendsWaits` states what each 11 are |
| LegacyDriver.SendsWaits | src/lib.rs:67-81 | events 11k to 11k + 9 of a sequence of sends are send k's trace, and event 11k + 10 is its wait |
| LegacyDriver.WriteTrace | src/lib.rs:67-81 | `write` makes 11 events per send |
| LegacyDriver.InitNibbles | src/lib.rs:86-93 | the nibble part of `init` is 24 events, with waits of 5000, 160, 160 and 10000 µs after the four transactions |
| LegacyDriver.InitTrace | src/lib.rs:84-99 | `init` starts with the 24 nibble events, ends with the 2000 µs wait of its last command, and is 24 + 3 × 11 events long |
| LegacyDriver.InitTraceSplit | src/lib.rs:84-99 | `init` is its nibble events followed by the sends of 0x28, 0x0C and 0x01, each with a 2000 µs wait |
| LegacyDriver.LegacyCursorByte | src/lib.rs:101-106 | as written, the cursor byte is 0x00 for every line and column |
| LegacyDriver.LiquidCristal.constructor | src/lib.rs:45-47 | the driver keeps the interface it is given |
| LegacyDriver.LiquidCristal.Send4Bits | src/lib.rs:50-56 | appends d, d \| EN, a 5 µs wait, d, a 5 µs wait |
| LegacyDriver.LiquidCristal.Send | src/lib.rs:59-64 | appends the transactions of `(d & 0xF0) \| rs` and then `((d << 4) & 0xF0) \| rs`, with no wait of its own |
| LegacyDriver.LiquidCristal.Write | src/lib.rs:67-81 | appends one command send and a 2000 µs wait, or one data send and an 80 µs wait per character, in order |
| LegacyDriver.LiquidCristal.Init | src/lib.rs:84-99 | appends the nibbles 0x30, 0x30, 0x30, 0x20 with waits of 5000, 160, 160 and 10000 µs, then `write`s Fun4bits2line, CursorOff and Clear |
| LegacyDriver.LiquidCristal.SetCursor | src/lib.rs:101-110 | appends one command send of the as-written cursor byte, with no wait |
| LegacyDriver.WriteSchedule | src/lib.rs:67-81 | send k of a `write` is followed by its wait (2000 µs for a command, 80 µs per character); a command is a send of its opcode with RS low, and character k is a send of its code with RS set |
| LegacyDriver.AsBus | src/lib.rs:51-54 | on the one-byte interface each byte drives the config lines (RS bit 0, EN bit 2) and the data lines at once; the bus view has one event per event |
| LegacyDriver.AsBusAt | src/lib.rs:51-54 | event k of the bus view writes byte b to both the config and the data lines when event k wrote b, and waits as long when it waited |
| LegacyDriver.TransactionStrobe | src/lib.rs:50-56 | from a low Enable line, the low-high-low transaction yields one falling edge sampling d, and leaves the line low |
| LegacyDriver.SendStrobes | src/lib.rs:59-64 | `send` delivers the high nibble and then the low nibble, with the same RS on both |
| LegacyDriver.SendsDelivery | src/lib.rs:59-64 | from a low Enable line, the controller reassembles exactly the bytes sent, in order, each to the register its RS selects |
| LegacyDriver.WriteDelivery | src/lib.rs:67-81 | `write(Command(c))` delivers c's opcode as a command; `write(Text(s))` delivers the character codes, in order, as data |
| LegacyDriver.InitDelivery | src/lib.rs:84-99 | `init` delivers the nibbles 0x3, 0x3, 0x3, 0x2 as commands, then the strobes of its three command sends |
| LegacyDriver.InitCommandsDelivered | src/lib.rs:96-98 | those command strobes reassemble to 0x28, 0x0C and 0x01 |
| LegacyDriver.SetCursorIgnoresPosition | src/lib.rs:101-110 | as written, `set_cursor` delivers command 0x00 whatever the line and column; the intended byte for line 2, column 5 is 0xC5 |

## Left out

- Real time. Delays are recorded as events with their literal microsecond values; nothing about elapsed
  time is modelled.
- Setup and hold times. The chip model reads RS, like the data lines, only at the falling edge of Enable.
  A real HD44780 also needs RS settled before Enable rises. Under the framer's high-low-high strobe,
  the first write of a send changes RS while Enable is already high. At every boundary between a data
  send and a command send, for example after `write(Text(..))`, RS therefore changes with Enable high.
  `Delivery.FourBitDelivery` shows the framer correct against this edge-sampling chip model, not against
  the chip's timing diagram.
- Electrical effects and errors. The physical effect of the pin writes and of the I2C write is not
  modelled, and neither are their `Result`s, which the source discards.
- The `Interface` trait itself. Each `Interface` implementor and the `DelayUs` provider are modelled as
  recorder classes.
  - The trait-level framer is stated against the `(config, data)` trace.
  - The parallel and I2C encoders are modelled as separate classes that take the same `(config, data)`
    calls.
  - A driver wired straight through to one of the encoders is not modelled as one object.
- The `LiquidCrystal` trait. It has one implementor, so its default methods are methods of
  `LiquidCrystal4Bits`.
- Method chaining. Returning `&mut Self` becomes sequential calls; `LcdBus.FrameAppend` shows what a
  chain amounts to.
- The one-argument `Interface` that `src/lib.rs` is written against. Its `interfaces` module is not part
  of this model. It is modelled by `LegacyDriver.Port`, with the same EN (0x04) and RS (0x01) bits as
  `src/lcd_trait/interfaces/mod.rs`.
- Non-existent behaviour. `LiquidCrystal8Bits` is modelled as its constructor only, because the source
  gives it no other operation. There is no 8-bit `send`.
- Unused data. `Layout` is modelled as data only, because `set_cursor` does not use it.
- Dead code and stubs. The commented-out `Parallel` of `src/lcd_trait/interfaces.rs`, the `dummy.rs`
  pin stub and the board examples are not part of this model.
- Delivery.FourBitDelivery: it holds for one fixed selector over the whole trace. Across a `select_display`
  or `echo` that drops a line, a deselected panel latches a stray nibble and loses its byte alignment,
  as the notes above describe. It also assumes every send's RS value leaves the listening enable line
  low (`StaysOffEnable`). This holds for the 0 and RS values the driver uses.
- LegacyDriver.SendsDelivery: it starts from a low Enable line and assumes RS values that leave the data
  nibble and EN clear (`RsClear`). From a high line, the first write of the older driver is itself a
  falling edge.
- Bytes.CharByte: `text as u8` is stated as the low eight bits of the scalar value, by definition rather
  than by a contract.

## Findings

| source | as written | input that shows it | evidently intended | confidence | as-written member | corrected member |
|---|---|---|---|---|---|---|
| src/lib.rs:101-106 | the cursor byte is `MoveLine1 & (0x3F & col)` on both branches, and 0x80 shares no bit with 0x3F, so the byte is always 0x00 | line 2, column 5 gives command 0x00 | 0xC0 + 5 = 0xC5 (`+` instead of `&`, and MoveLine2 on the second branch, as `src/lcd_trait/mod.rs:68-73` does) | high; not executed | LegacyDriver.SetCursorIgnoresPosition | LcdTrait.SetCursorCommand |
