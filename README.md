# ADXL313 accelerometer driver — register-access model

This project models the register-access logic of `QwiicAdxl313`, the Python
driver for the ADXL313 three-axis accelerometer on the two-wire (I2C) bus.
Every public operation of the driver that touches the device is one of the
following, or a short sequence of them (`autosleepOn` is two
read-modify-writes; `clearFifo` is a read followed by two
read-modify-writes):

- a read of one 8-bit register;
- a read-modify-write of one 8-bit register;
- a whole-byte write;
- the six-byte block read of the acceleration sample.

The clamp `limit` touches no register: it is a pure helper.

The model stands in a simulated register file for the device.

- `options.dfy` (`Options`): the optional-value type, used for the
  constructor's address argument and for the range decode.
- `registers.dfy` (`Registers`): the fixed register map 0x00–0x39, the bit
  positions, the field codes and the identification bytes.
- `bitfields.dfy` (`BitFields`): pure byte-level functions that compute
  each new register byte and decode each field. It has single bits, the
  range, FIFO mode, FIFO watermark and FIFO entry fields, the range decode and
  the saturating `limit` clamp. Lemmas about them: bit-level semantics, field
  independence, restoring a byte, and the documented call sequences.
- `axis.dfy` (`AxisData`): decoding of one axis from its little-endian
  two's-complement byte pair and of the six-byte sample. Round trips in both
  directions are proved.
- `bus.dfy` (`Bus`): the transport reduced to one device, an `array<bv8>` of
  0x3A registers. It can read a byte, write a byte and read a block. A ghost
  transcript records every transfer, so contracts can state the exact bus
  traffic of an operation.
- `adxl313.dfy` (`Adxl313`): the driver class. It holds a fixed transport
  handle, the cached axis triple `x`, `y`, `z` and the five cached
  interrupt-source flags. Each method states the new register file, the new
  cache and the transfers it makes.
- `scenarios.dfy` (`Scenarios`): properties that span several calls, such as
  set-then-get round trips and the documented standby/measure, autosleep and
  low-power/bandwidth sequences.

Register bytes are `bv8` and bit operations are written as the driver
writes them. The axis word and the clamp are computed on unbounded `int`,
as Python computes them. Elsewhere the driver passes Python integers that
may exceed a byte: the shifted mask `1 << bitPos` of `setRegisterBit`, and
the unmasked arguments of `setRange`, `setFifoMode`,
`setFifoSamplesThreshhold` and `setBandwidth`. The model keeps those values
within a byte, and "## Left out" says how for each. The full-scale range, which the
driver returns as a float (0.5, 1, 2, 4 g), is modelled in units of 0.5 g
(1, 2, 4, 8). A range code with no defined range gives `None` instead of the
driver's 0.1 fallback.

Two details follow the code where a reader might expect otherwise.

- `setRange` keeps only bits 2, 3, 5, 6 and 7 of DATA_FORMAT through its
  mask 0b11101100 (qwiic_adxl313.py:404-405), so it clears bit 4. See
  `BitFields.WithRange`.
- `getFifoEntriesAmount`'s docstring (qwiic_adxl313.py:853-858) says 0-32,
  but its six-bit mask (qwiic_adxl313.py:862) bounds the result by 63. See
  `BitFields.FifoEntriesOf`.

## Model

| member | source | states |
|---|---|---|
| `BitFields.BitOf` | qwiic_adxl313.py:333 | the bit read is 0 or 1, and it is 1 exactly when the position is inside the byte and the one-bit mask at that position meets the byte |
| `BitFields.WithBit` | qwiic_adxl313.py:311-314 | after the masked set or clear, bit `p` equals the requested state and every other bit equals the old one; clearing a position beyond the byte keeps the byte |
| `BitFields.WithBitUnchanged` | qwiic_adxl313.py:310-315 | writing a bit with the value it already has leaves the register byte unchanged, for every position |
| `BitFields.WithBitOverwrite` | qwiic_adxl313.py:310-315 | a second write of the same bit supersedes the first |
| `BitFields.RangeCode` | qwiic_adxl313.py:374 | the range code is at most 3, equals the byte mod 4, and is made of bits 0 and 1 |
| `BitFields.WithRange` | qwiic_adxl313.py:403-406 | the written DATA_FORMAT byte has the new code in bits 0-1, keeps bits 2, 3, 5, 6 and 7, and has bit 4 cleared |
| `BitFields.RangeScale` | qwiic_adxl313.py:375-388 | codes 0-3 decode to 2^code half-g units (0.5, 1, 2, 4 g); any other code gives None, the fallback made explicit |
| `BitFields.RangeScaleDefined` | qwiic_adxl313.py:373-388 | the decode of the two-bit field of any byte is defined, so the 0.1 fallback cannot be reached |
| `BitFields.RangeScaleInjective` | qwiic_adxl313.py:380-387 | distinct range codes decode to distinct ranges |
| `BitFields.FifoModeOf` | qwiic_adxl313.py:792-795 | the FIFO mode is at most 3, equals the byte divided by 64, and is made of bits 6 and 7 |
| `BitFields.WithFifoMode` | qwiic_adxl313.py:810-813 | the written FIFO_CTL byte decodes to the requested mode and keeps bits 0-5 |
| `BitFields.FifoSamplesOf` | qwiic_adxl313.py:827-829 | the watermark threshold is at most 31 and equals the byte mod 32 |
| `BitFields.WithFifoSamples` | qwiic_adxl313.py:844-847 | bits 5-7 of the written byte are the old bits 5-7 ORed with the argument's bits 5-7; the threshold field is the argument's low five bits |
| `BitFields.WithFifoSamplesInRange` | qwiic_adxl313.py:844-847 | for a threshold in 0..31, bits 5-7 are kept and the threshold reads back |
| `BitFields.FifoSamplesThirtyTwo` | qwiic_adxl313.py:835-846 | the threshold 32, which the docstring allows, sets bit 5 and reads back as 0 |
| `BitFields.FifoEntriesOf` | qwiic_adxl313.py:861-863 | the FIFO entry count is at most 63 and equals the FIFO_STATUS byte mod 64 |
| `BitFields.FifoFieldsIndependent` | qwiic_adxl313.py:810-847 | the mode write keeps the threshold, the threshold write keeps the mode, and the two writes commute |
| `BitFields.FifoModeRestore` | qwiic_adxl313.py:876-878 | bypass followed by the previously read mode writes back the original FIFO_CTL byte |
| `BitFields.Limit` | qwiic_adxl313.py:632-648 | the clamp lies in [minimum, maximum], is the identity inside it, and saturates to the nearer bound outside it |
| `BitFields.LimitIdempotent` | qwiic_adxl313.py:644-648 | clamping into [1, 255] twice is clamping once |
| `BitFields.LimitMonotone` | qwiic_adxl313.py:644-648 | the clamp into [1, 255] preserves the order of its inputs |
| `BitFields.ThresholdByte` | qwiic_adxl313.py:546-547 | the byte written for a threshold has the clamped value, which fits in a byte |
| `BitFields.StandbyThenMeasureFromZero` | qwiic_adxl313.py:267-280 | from POWER_CTL 0x00, clearing and then setting the measure bit gives 0x08 |
| `BitFields.AutosleepOnThenOff` | qwiic_adxl313.py:424-442 | autosleep on ORs 0x30 into POWER_CTL; autosleep off afterwards clears bit 4 only, so link (bit 5) stays set |
| `AxisData.Word` | qwiic_adxl313.py:347-349 | the byte pair forms an unsigned 16-bit word |
| `AxisData.WordIsShiftOr` | qwiic_adxl313.py:347-349 | the word equals the driver's `(hi << 8) \| lo` computed on 16 bits |
| `AxisData.DecodeAxis` | qwiic_adxl313.py:347-359 | every decoded axis lies in [-32768, 32767] |
| `AxisData.DecodeAxisTwosComplement` | qwiic_adxl313.py:351-359 | the decoded value is negative exactly when bit 7 of the high byte is set, and it is congruent to the word modulo 65536 |
| `AxisData.EncodeDecodeAxis` | qwiic_adxl313.py:347-359 | re-encoding a decoded axis as two's complement recovers the two original bytes |
| `AxisData.DecodeEncodeAxis` | qwiic_adxl313.py:347-359 | every signed 16-bit reading is the decode of its two's-complement bytes |
| `AxisData.DecodeAxisExamples` | qwiic_adxl313.py:354-355 | (0xFF,0x7F) gives 32767, (0x00,0x80) gives -32768, (0x01,0x00) gives 1 and (0xFF,0xFF) gives -1 |
| `AxisData.EncodeDecodeSample` | qwiic_adxl313.py:346-359 | the same per-axis rule on the six data bytes loses nothing: re-encoding gives back the six bytes |
| `AxisData.DecodeEncodeSample` | qwiic_adxl313.py:346-359 | every triple of readings is the decode of its six-byte encoding |
| `Bus.Transport.constructor` | qwiic_adxl313.py:213-219 | the transport wraps the device's 0x3A registers and starts with an empty transcript |
| `Bus.Transport.ReadByte` | qwiic_adxl313.py:310 | a byte read returns the register's content, changes nothing and logs one read |
| `Bus.Transport.WriteByte` | qwiic_adxl313.py:315 | a byte write changes that register only and logs one write |
| `Bus.Transport.ReadBlock` | qwiic_adxl313.py:346 | a block read returns the consecutive registers, changes nothing and logs one block read |
| `Adxl313.QwiicAdxl313.constructor` | qwiic_adxl313.py:206-219 | the handle takes the given address or the default 0x1D and the given transport; the cached axes and flags start at 0 |
| `Adxl313.QwiicAdxl313.Begin` | qwiic_adxl313.py:241-254 | succeeds exactly when the identification byte at PARTID is 0xCB, after one read |
| `Adxl313.QwiicAdxl313.SetRegisterBit` | qwiic_adxl313.py:299-316 | bit `p` of register `r` becomes the state; every other bit of `r` and every other register is unchanged; the traffic is one read then one write of `r` |
| `Adxl313.QwiicAdxl313.GetRegisterBit` | qwiic_adxl313.py:322-333 | returns bit `p` of register `r` as 0 or 1 after one read |
| `Adxl313.QwiicAdxl313.Standby` | qwiic_adxl313.py:260-267 | clears bit 3 of POWER_CTL only; the traffic is one read then one write of POWER_CTL |
| `Adxl313.QwiicAdxl313.MeasureModeOn` | qwiic_adxl313.py:273-280 | sets bit 3 of POWER_CTL only; the traffic is one read then one write of POWER_CTL |
| `Adxl313.QwiicAdxl313.DataReady` | qwiic_adxl313.py:286-293 | returns bit 7 of INT_SOURCE as 0 or 1 |
| `Adxl313.QwiicAdxl313.ReadAccel` | qwiic_adxl313.py:339-360 | one six-byte block read from DATA_X0; `(x, y, z)` equals `AxisData.DecodeSample` of the six bytes, which applies `DecodeAxis` to each byte pair in order; each axis lies in [-32768, 32767]; no register is written |
| `Adxl313.QwiicAdxl313.GetRange` | qwiic_adxl313.py:366-388 | returns the range of the DATA_FORMAT code in half-g units, which is always defined |
| `Adxl313.QwiicAdxl313.SetRange` | qwiic_adxl313.py:394-407 | DATA_FORMAT gets the code in bits 0-1, keeps bits 2, 3, 5, 6 and 7 and has bit 4 cleared; no other register changes |
| `Adxl313.QwiicAdxl313.AutosleepOn` | qwiic_adxl313.py:416-428 | POWER_CTL gains link (bit 5) and autosleep (bit 4) and keeps its other bits; the traffic is two read-then-write pairs of POWER_CTL, the first writing the old byte with link set |
| `Adxl313.QwiicAdxl313.AutosleepOff` | qwiic_adxl313.py:434-443 | clears autosleep (bit 4) of POWER_CTL only; link keeps its value; the traffic is one read then one write of POWER_CTL |
| `Adxl313.QwiicAdxl313.SetActivityX` | qwiic_adxl313.py:449-457 | bit 6 of ACT_INACT_CTL becomes the state, nothing else changes; the traffic is one read then one write of ACT_INACT_CTL |
| `Adxl313.QwiicAdxl313.SetActivityY` | qwiic_adxl313.py:463-471 | bit 5 of ACT_INACT_CTL becomes the state, nothing else changes; the traffic is one read then one write of ACT_INACT_CTL |
| `Adxl313.QwiicAdxl313.SetActivityZ` | qwiic_adxl313.py:477-485 | bit 4 of ACT_INACT_CTL becomes the state, nothing else changes; the traffic is one read then one write of ACT_INACT_CTL |
| `Adxl313.QwiicAdxl313.SetInactivityX` | qwiic_adxl313.py:491-499 | bit 2 of ACT_INACT_CTL becomes the state, nothing else changes; the traffic is one read then one write of ACT_INACT_CTL |
| `Adxl313.QwiicAdxl313.SetInactivityY` | qwiic_adxl313.py:505-513 | bit 1 of ACT_INACT_CTL becomes the state, nothing else changes; the traffic is one read then one write of ACT_INACT_CTL |
| `Adxl313.QwiicAdxl313.SetInactivityZ` | qwiic_adxl313.py:519-527 | bit 0 of ACT_INACT_CTL becomes the state, nothing else changes; the traffic is one read then one write of ACT_INACT_CTL |
| `Adxl313.QwiicAdxl313.SetActivityThreshold` | qwiic_adxl313.py:538-548 | THRESH_ACT (0x24) becomes the clamped value by one write without a read; nothing else changes |
| `Adxl313.QwiicAdxl313.GetActivityThreshold` | qwiic_adxl313.py:554-561 | returns the THRESH_ACT byte |
| `Adxl313.QwiicAdxl313.SetInactivityThreshold` | qwiic_adxl313.py:572-582 | THRESH_INACT (0x25) becomes the clamped value; nothing else changes |
| `Adxl313.QwiicAdxl313.GetInactivityThreshold` | qwiic_adxl313.py:588-595 | returns the THRESH_INACT byte |
| `Adxl313.QwiicAdxl313.SetTimeInactivity` | qwiic_adxl313.py:607-617 | TIME_INACT (0x26) becomes the clamped value; nothing else changes |
| `Adxl313.QwiicAdxl313.GetTimeInactivity` | qwiic_adxl313.py:623-630 | returns the TIME_INACT byte |
| `Adxl313.QwiicAdxl313.SetInterruptMapping` | qwiic_adxl313.py:654-663 | the interrupt's bit of INT_MAP is set for a non-zero pin and cleared for pin 0; nothing else changes; the traffic is one read then one write of INT_MAP |
| `Adxl313.QwiicAdxl313.IsInterruptEnabled` | qwiic_adxl313.py:670-678 | returns the interrupt's bit of INT_ENABLE as 0 or 1 |
| `Adxl313.QwiicAdxl313.SetInterrupt` | qwiic_adxl313.py:684-693 | the interrupt's bit of INT_ENABLE becomes the state; nothing else changes; the traffic is one read then one write of INT_ENABLE |
| `Adxl313.QwiicAdxl313.ActivityInt` | qwiic_adxl313.py:699-710 | bit 4 of INT_ENABLE becomes the state; the traffic is one read then one write of INT_ENABLE |
| `Adxl313.QwiicAdxl313.InactivityInt` | qwiic_adxl313.py:716-727 | bit 3 of INT_ENABLE becomes the state; the traffic is one read then one write of INT_ENABLE |
| `Adxl313.QwiicAdxl313.DataReadyInt` | qwiic_adxl313.py:733-744 | bit 7 of INT_ENABLE becomes the state; the traffic is one read then one write of INT_ENABLE |
| `Adxl313.QwiicAdxl313.WatermarkInt` | qwiic_adxl313.py:750-761 | bit 1 of INT_ENABLE becomes the state; the traffic is one read then one write of INT_ENABLE |
| `Adxl313.QwiicAdxl313.OverrunInt` | qwiic_adxl313.py:767-778 | bit 0 of INT_ENABLE becomes the state; the traffic is one read then one write of INT_ENABLE |
| `Adxl313.QwiicAdxl313.GetFifoMode` | qwiic_adxl313.py:785-795 | returns the mode in bits 6-7 of FIFO_CTL, at most 3 |
| `Adxl313.QwiicAdxl313.SetFifoMode` | qwiic_adxl313.py:801-814 | FIFO_CTL gets the mode in bits 6-7 and keeps bits 0-5; nothing else changes |
| `Adxl313.QwiicAdxl313.GetFifoSamplesThreshhold` | qwiic_adxl313.py:820-829 | returns the threshold in bits 0-4 of FIFO_CTL, at most 31 |
| `Adxl313.QwiicAdxl313.SetFifoSamplesThreshhold` | qwiic_adxl313.py:835-848 | FIFO_CTL gets the threshold in bits 0-4 and keeps bits 5-7; nothing else changes |
| `Adxl313.QwiicAdxl313.GetFifoEntriesAmount` | qwiic_adxl313.py:854-863 | returns bits 0-5 of FIFO_STATUS, at most 63 |
| `Adxl313.QwiicAdxl313.ClearFifo` | qwiic_adxl313.py:869-879 | the register file ends as it began; the traffic is exactly three reads and two writes of FIFO_CTL, where the one intermediate write has bypass in bits 6-7 and the old bits 0-5 and the last write restores the original byte |
| `Adxl313.QwiicAdxl313.UpdateIntSourceStatuses` | qwiic_adxl313.py:885-898 | exactly one read of INT_SOURCE and no write; the five flags are bits 7, 4, 3, 1 and 0 of that one byte |
| `Adxl313.QwiicAdxl313.IsLowPower` | qwiic_adxl313.py:903-904 | returns bit 4 of BW_RATE as 0 or 1 |
| `Adxl313.QwiicAdxl313.LowPowerOn` | qwiic_adxl313.py:906-907 | sets bit 4 of BW_RATE only; the traffic is one read then one write of BW_RATE |
| `Adxl313.QwiicAdxl313.LowPowerOff` | qwiic_adxl313.py:909-910 | clears bit 4 of BW_RATE only; the traffic is one read then one write of BW_RATE |
| `Adxl313.QwiicAdxl313.SetLowPower` | qwiic_adxl313.py:912-916 | bit 4 of BW_RATE becomes the state; nothing else changes; the traffic is one read then one write of BW_RATE |
| `Adxl313.QwiicAdxl313.SetBandwidth` | qwiic_adxl313.py:923-924 | BW_RATE becomes exactly `bw` in one write, so the low-power bit afterwards is bit 4 of `bw` whatever it was before |
| `Adxl313.QwiicAdxl313.GetBandwidth` | qwiic_adxl313.py:926-927 | returns the BW_RATE byte |
| `Scenarios.SetThenGetRegisterBit` | qwiic_adxl313.py:299-333 | a bit read back after it is set or cleared is the state written, as 0 or 1 |
| `Scenarios.StandbyThenMeasure` | qwiic_adxl313.py:260-280 | from POWER_CTL 0x00, standby then measure leaves 0x08 and no other register changed |
| `Scenarios.AutosleepCycle` | qwiic_adxl313.py:416-443 | autosleep on then off leaves link set, autosleep clear and the other POWER_CTL bits as they were |
| `Scenarios.SetThenGetRange` | qwiic_adxl313.py:366-407 | each of the four range codes reads back as its range |
| `Scenarios.SetThenGetActivityThreshold` | qwiic_adxl313.py:538-561 | the activity threshold reads back as the clamped value: 300 as 255, 0 as 1 |
| `Scenarios.SetThenGetInactivityThreshold` | qwiic_adxl313.py:572-595 | the inactivity threshold reads back as the clamped value |
| `Scenarios.SetThenGetTimeInactivity` | qwiic_adxl313.py:607-630 | the inactivity time reads back as the clamped value |
| `Scenarios.SetThenGetFifoFields` | qwiic_adxl313.py:785-848 | after setting the FIFO mode and then the threshold, both read back as written |
| `Scenarios.LowPowerThenBandwidth` | examples/ex4_qwiic_adxl313_low_power_mode.py:68-72 | low power on, then bandwidth 12.5 Hz: BW_RATE is 0x08 and low power reads back as off |

## Left out

- The bus transport (`qwiic_i2c`) is left out as foreign code. This covers
  loading the platform driver in the constructor, `isConnected` and the
  `connected` property. The transport is modelled only as the simulated
  register file behind `Bus.Transport`. The device address is recorded but
  not passed with each transfer, and bus failures are not modelled.
- Every operation's constant `True` result is omitted. `setLowPower` and
  `setBandwidth` return nothing.
- The `lowPower` and `bandwidth` properties are aliases of the modelled
  getter and setter pairs.
- The hardware side effects of reads are left out. Reading INT_SOURCE,
  FIFO_STATUS or the data registers has effects on the real device that the
  model does not capture: the registers are plain storage.
- Console output is left out. This covers the message `begin` prints for an
  invalid chip ID and the one the constructor prints when no bus driver
  loads. The example programs are caller code and are left out as well.
  They busy-wait, sleep, print and write log files. This includes the FIFO drain loop that
  reads the entry count once and then one sample per entry.
- Adxl313.QwiicAdxl313.Begin: models the evidently intended check of the
  PARTID byte against the valid chip IDs [0xCB]. As written, the source reads
  `self.AGB0_REG_WHO_AM_I`, which the class does not define, so every call
  raises AttributeError.
- Adxl313.QwiicAdxl313.GetRange: reads DATA_FORMAT, the evidently intended
  register. As written, the source reads the undefined name `regAddress`, so
  every call raises NameError. The float result is modelled in half-g units.
- Adxl313.QwiicAdxl313.IsLowPower: models the evidently intended
  `self.getRegisterBit(BW_RATE, 4)`. As written, the call lacks `self.`, so it
  raises NameError.
- Adxl313.QwiicAdxl313.SetBandwidth: modelled as written. The whole BW_RATE
  byte is overwritten, so low power set earlier is lost.
  `Scenarios.LowPowerThenBandwidth` shows this for the sequence of the
  low-power example program.
- Adxl313.QwiicAdxl313.SetFifoSamplesThreshhold: requires a threshold of at
  most 31. The source does not mask its argument. The docstring's value 32
  would set bit 5 of FIFO_CTL and read back as 0, as
  `BitFields.FifoSamplesThirtyTwo` shows.
- Adxl313.QwiicAdxl313.SetRange: requires a code of at most 3. The source
  ORs a larger argument unmasked into DATA_FORMAT.
- Adxl313.QwiicAdxl313.SetFifoMode: requires a mode of at most 3. A larger
  mode shifted left by 6 leaves the byte range.
- Adxl313.QwiicAdxl313.SetRegisterBit: requires a bit position below 8 when
  the bit is set. Setting a larger position yields a value above 255, and what
  the transport then does is not part of this model. Clearing a larger
  position is modelled: it writes the byte back unchanged, as the source does.
- Adxl313.QwiicAdxl313.SetInterrupt: carries the same restriction. It
  requires an interrupt bit below 8 when enabling.
- Adxl313.QwiicAdxl313.SetInterruptMapping: carries the same restriction. It
  requires an interrupt bit below 8 when mapping to a non-zero pin.
- Adxl313.QwiicAdxl313.SetBandwidth: takes a byte. The source passes any
  integer through to the transport.
- Python truthiness of `state` arguments is modelled as `bool`. The pin of
  the interrupt mapping stays an integer, and only a non-zero pin sets the bit.
