/** The ADXL313 driver object.  It owns a handle on the bus transport and a
    small cache: the last decoded axis triple and the five interrupt-source
    flags of the last INT_SOURCE read.  Every operation is a read, a write or
    a read-modify-write of one register, the axis read is one block read,
    and AutosleepOn and ClearFifo are short sequences of these;
    each method's contract gives the new register file, the new cache and the
    exact bus traffic. */
module Adxl313 {
  import opened Options
  import opened Registers
  import opened BitFields
  import opened AxisData
  import opened Bus

  class QwiicAdxl313 {
    /** The bus address the device answers at. */
    const address: nat
    /** The transport, fixed for the handle's lifetime. */
    const bus: Transport

    /** Raw counts of the last axis read. */
    var x: int
    var y: int
    var z: int

    /** Interrupt-source flags (0 or 1) of the last INT_SOURCE read. */
    var intSourceDataReady: nat
    var intSourceActivity: nat
    var intSourceInactivity: nat
    var intSourceWatermark: nat
    var intSourceOverrun: nat

    /** The transport holds a full register file.  Both `bus` and its
        array are constants, so no method can falsify this once it holds. */
    ghost predicate Valid()
    {
      bus.Valid()
    }

    /** A handle at `addr`, or at the default address when none is given,
        with every cached value 0. */
    constructor (addr: Option<nat>, transport: Transport)
      requires transport.Valid()
      ensures Valid() && bus == transport
      ensures address == if addr.Some? then addr.value else AddressDefault
      ensures x == 0 && y == 0 && z == 0
      ensures intSourceDataReady == 0 && intSourceActivity == 0 && intSourceInactivity == 0
      ensures intSourceWatermark == 0 && intSourceOverrun == 0
    {
      address := if addr.Some? then addr.value else AddressDefault;
      bus := transport;
      x, y, z := 0, 0, 0;
      intSourceDataReady, intSourceActivity, intSourceInactivity := 0, 0, 0;
      intSourceWatermark, intSourceOverrun := 0, 0;
    }

    /** Checks the part identification byte. */
    method Begin() returns (ok: bool)
      requires Valid()
      modifies bus`trace
      ensures ok <==> bus.regs[PARTID] == PARTID_EXPECTED
      ensures bus.trace == old(bus.trace) + [ByteRead(PARTID)]
    {
      var chipId := bus.ReadByte(PARTID);
      ok := chipId in ValidChipIds;
    }

    /** Forces bit `bitPos` of register `reg` to `state` by reading the byte,
        changing that bit and writing the byte back. */
    method SetRegisterBit(reg: nat, bitPos: nat, state: bool)
      requires Valid() && reg < RegisterCount && (bitPos < 8 || !state)
      modifies bus.regs, bus`trace
      ensures bus.regs[..] == old(bus.regs[..])[reg := WithBit(old(bus.regs[reg]), bitPos, state)]
      ensures BitOf(bus.regs[reg], bitPos) == if state then 1 else 0
      ensures forall q: nat :: q != bitPos ==> BitOf(bus.regs[reg], q) == BitOf(old(bus.regs[reg]), q)
      ensures bus.trace == old(bus.trace) + [ByteRead(reg), ByteWrite(reg, bus.regs[reg])]
    {
      var register := bus.ReadByte(reg);
      register := WithBit(register, bitPos, state);
      bus.WriteByte(reg, register);
    }

    /** Bit `bitPos` of register `reg`, as 0 or 1. */
    method GetRegisterBit(reg: nat, bitPos: nat) returns (bit: nat)
      requires Valid() && reg < RegisterCount
      modifies bus`trace
      ensures bit <= 1
      ensures bit == BitOf(bus.regs[reg], bitPos)
      ensures bus.trace == old(bus.trace) + [ByteRead(reg)]
    {
      var register := bus.ReadByte(reg);
      bit := BitOf(register, bitPos);
    }

    /** Clears the measure bit of POWER_CTL. */
    method Standby()
      requires Valid()
      modifies bus.regs, bus`trace
      ensures bus.regs[..] == old(bus.regs[..])[POWER_CTL := WithBit(old(bus.regs[POWER_CTL]), MEASURE_BIT, false)]
      ensures BitOf(bus.regs[POWER_CTL], MEASURE_BIT) == 0
      ensures bus.trace == old(bus.trace) + [ByteRead(POWER_CTL), ByteWrite(POWER_CTL, bus.regs[POWER_CTL])]
    {
      SetRegisterBit(POWER_CTL, MEASURE_BIT, false);
    }

    /** Sets the measure bit of POWER_CTL. */
    method MeasureModeOn()
      requires Valid()
      modifies bus.regs, bus`trace
      ensures bus.regs[..] == old(bus.regs[..])[POWER_CTL := WithBit(old(bus.regs[POWER_CTL]), MEASURE_BIT, true)]
      ensures BitOf(bus.regs[POWER_CTL], MEASURE_BIT) == 1
      ensures bus.trace == old(bus.trace) + [ByteRead(POWER_CTL), ByteWrite(POWER_CTL, bus.regs[POWER_CTL])]
    {
      SetRegisterBit(POWER_CTL, MEASURE_BIT, true);
    }

    /** The data-ready bit of INT_SOURCE. */
    method DataReady() returns (ready: nat)
      requires Valid()
      modifies bus`trace
      ensures ready <= 1
      ensures ready == BitOf(bus.regs[INT_SOURCE], INT_DATA_READY_BIT)
      ensures bus.trace == old(bus.trace) + [ByteRead(INT_SOURCE)]
    {
      ready := GetRegisterBit(INT_SOURCE, INT_DATA_READY_BIT);
    }

    /** One six-byte block read from DATA_X0; each byte pair becomes the
        word `(hi << 8) | lo`, less 65536 when it exceeds 32767. */
    method ReadAccel()
      requires Valid()
      modifies this`x, this`y, this`z, bus`trace
      ensures Sample(x, y, z) == DecodeSample(bus.regs[DATA_X0..DATA_X0 + SampleBytes])
      ensures AxisMin <= x <= AxisMax && AxisMin <= y <= AxisMax && AxisMin <= z <= AxisMax
      ensures bus.trace == old(bus.trace) + [BlockRead(DATA_X0, SampleBytes)]
    {
      var buff := bus.ReadBlock(DATA_X0, SampleBytes);
      x := DecodeAxis(buff[0], buff[1]);
      y := DecodeAxis(buff[2], buff[3]);
      z := DecodeAxis(buff[4], buff[5]);
    }

    /** The full-scale range held in DATA_FORMAT, in units of 0.5 g; the
        two-bit code always has one. */
    method GetRange() returns (halfG: Option<nat>)
      requires Valid()
      modifies bus`trace
      ensures halfG == RangeScale(RangeCode(bus.regs[DATA_FORMAT]))
      ensures halfG.Some?
      ensures bus.trace == old(bus.trace) + [ByteRead(DATA_FORMAT)]
    {
      var register := bus.ReadByte(DATA_FORMAT);
      halfG := RangeScale(RangeCode(register));
    }

    /** Writes range code `newRange` into bits 0-1 of DATA_FORMAT. */
    method SetRange(newRange: nat)
      requires Valid() && newRange <= 3
      modifies bus.regs, bus`trace
      ensures bus.regs[..] == old(bus.regs[..])[DATA_FORMAT := WithRange(old(bus.regs[DATA_FORMAT]), newRange)]
      ensures RangeCode(bus.regs[DATA_FORMAT]) == newRange
      ensures bus.regs[DATA_FORMAT] & 0xEC == old(bus.regs[DATA_FORMAT]) & 0xEC
      ensures BitOf(bus.regs[DATA_FORMAT], 4) == 0
      ensures bus.trace == old(bus.trace) + [ByteRead(DATA_FORMAT), ByteWrite(DATA_FORMAT, bus.regs[DATA_FORMAT])]
    {
      var register := bus.ReadByte(DATA_FORMAT);
      bus.WriteByte(DATA_FORMAT, WithRange(register, newRange));
    }

    /** Sets the link bit and then the autosleep bit of POWER_CTL. */
    method AutosleepOn()
      requires Valid()
      modifies bus.regs, bus`trace
      ensures bus.regs[..] == old(bus.regs[..])[POWER_CTL := old(bus.regs[POWER_CTL]) | 0x30]
      ensures BitOf(bus.regs[POWER_CTL], LINK_BIT) == 1 && BitOf(bus.regs[POWER_CTL], AUTOSLEEP_BIT) == 1
      ensures bus.trace == old(bus.trace) + [
                ByteRead(POWER_CTL), ByteWrite(POWER_CTL, WithBit(old(bus.regs[POWER_CTL]), LINK_BIT, true)),
                ByteRead(POWER_CTL), ByteWrite(POWER_CTL, bus.regs[POWER_CTL])]
    {
      ghost var before := bus.regs[POWER_CTL];
      SetRegisterBit(POWER_CTL, LINK_BIT, true);
      SetRegisterBit(POWER_CTL, AUTOSLEEP_BIT, true);
      AutosleepOnThenOff(before);
    }

    /** Clears the autosleep bit of POWER_CTL; link is left as it is. */
    method AutosleepOff()
      requires Valid()
      modifies bus.regs, bus`trace
      ensures bus.regs[..] == old(bus.regs[..])[POWER_CTL := WithBit(old(bus.regs[POWER_CTL]), AUTOSLEEP_BIT, false)]
      ensures BitOf(bus.regs[POWER_CTL], AUTOSLEEP_BIT) == 0
      ensures BitOf(bus.regs[POWER_CTL], LINK_BIT) == BitOf(old(bus.regs[POWER_CTL]), LINK_BIT)
      ensures bus.trace == old(bus.trace) + [ByteRead(POWER_CTL), ByteWrite(POWER_CTL, bus.regs[POWER_CTL])]
    {
      SetRegisterBit(POWER_CTL, AUTOSLEEP_BIT, false);
    }

    /** Axis participation in activity detection: bits 6, 5, 4 of ACT_INACT_CTL. */
    method SetActivityX(state: bool)
      requires Valid()
      modifies bus.regs, bus`trace
      ensures bus.regs[..] == old(bus.regs[..])[ACT_INACT_CTL := WithBit(old(bus.regs[ACT_INACT_CTL]), ACT_X_BIT, state)]
      ensures bus.trace == old(bus.trace) + [ByteRead(ACT_INACT_CTL), ByteWrite(ACT_INACT_CTL, bus.regs[ACT_INACT_CTL])]
    {
      SetRegisterBit(ACT_INACT_CTL, ACT_X_BIT, state);
    }

    method SetActivityY(state: bool)
      requires Valid()
      modifies bus.regs, bus`trace
      ensures bus.regs[..] == old(bus.regs[..])[ACT_INACT_CTL := WithBit(old(bus.regs[ACT_INACT_CTL]), ACT_Y_BIT, state)]
      ensures bus.trace == old(bus.trace) + [ByteRead(ACT_INACT_CTL), ByteWrite(ACT_INACT_CTL, bus.regs[ACT_INACT_CTL])]
    {
      SetRegisterBit(ACT_INACT_CTL, ACT_Y_BIT, state);
    }

    method SetActivityZ(state: bool)
      requires Valid()
      modifies bus.regs, bus`trace
      ensures bus.regs[..] == old(bus.regs[..])[ACT_INACT_CTL := WithBit(old(bus.regs[ACT_INACT_CTL]), ACT_Z_BIT, state)]
      ensures bus.trace == old(bus.trace) + [ByteRead(ACT_INACT_CTL), ByteWrite(ACT_INACT_CTL, bus.regs[ACT_INACT_CTL])]
    {
      SetRegisterBit(ACT_INACT_CTL, ACT_Z_BIT, state);
    }

    /** Axis participation in inactivity detection: bits 2, 1, 0 of ACT_INACT_CTL. */
    method SetInactivityX(state: bool)
      requires Valid()
      modifies bus.regs, bus`trace
      ensures bus.regs[..] == old(bus.regs[..])[ACT_INACT_CTL := WithBit(old(bus.regs[ACT_INACT_CTL]), INACT_X_BIT, state)]
      ensures bus.trace == old(bus.trace) + [ByteRead(ACT_INACT_CTL), ByteWrite(ACT_INACT_CTL, bus.regs[ACT_INACT_CTL])]
    {
      SetRegisterBit(ACT_INACT_CTL, INACT_X_BIT, state);
    }

    method SetInactivityY(state: bool)
      requires Valid()
      modifies bus.regs, bus`trace
      ensures bus.regs[..] == old(bus.regs[..])[ACT_INACT_CTL := WithBit(old(bus.regs[ACT_INACT_CTL]), INACT_Y_BIT, state)]
      ensures bus.trace == old(bus.trace) + [ByteRead(ACT_INACT_CTL), ByteWrite(ACT_INACT_CTL, bus.regs[ACT_INACT_CTL])]
    {
      SetRegisterBit(ACT_INACT_CTL, INACT_Y_BIT, state);
    }

    method SetInactivityZ(state: bool)
      requires Valid()
      modifies bus.regs, bus`trace
      ensures bus.regs[..] == old(bus.regs[..])[ACT_INACT_CTL := WithBit(old(bus.regs[ACT_INACT_CTL]), INACT_Z_BIT, state)]
      ensures bus.trace == old(bus.trace) + [ByteRead(ACT_INACT_CTL), ByteWrite(ACT_INACT_CTL, bus.regs[ACT_INACT_CTL])]
    {
      SetRegisterBit(ACT_INACT_CTL, INACT_Z_BIT, state);
    }

    /** Writes the clamped activity threshold to THRESH_ACT, without reading it first. */
    method SetActivityThreshold(activityThreshold: int)
      requires Valid()
      modifies bus.regs, bus`trace
      ensures bus.regs[..] == old(bus.regs[..])[THRESH_ACT := ThresholdByte(activityThreshold)]
      ensures bus.regs[THRESH_ACT] as int == Limit(activityThreshold, LimitMin, LimitMax)
      ensures bus.trace == old(bus.trace) + [ByteWrite(THRESH_ACT, bus.regs[THRESH_ACT])]
    {
      var threshold := ThresholdByte(activityThreshold);
      bus.WriteByte(THRESH_ACT, threshold);
    }

    method GetActivityThreshold() returns (threshold: nat)
      requires Valid()
      modifies bus`trace
      ensures threshold < 256 && threshold == bus.regs[THRESH_ACT] as nat
      ensures bus.trace == old(bus.trace) + [ByteRead(THRESH_ACT)]
    {
      var register := bus.ReadByte(THRESH_ACT);
      threshold := register as nat;
    }

    /** Writes the clamped inactivity threshold to THRESH_INACT. */
    method SetInactivityThreshold(inactivityThreshold: int)
      requires Valid()
      modifies bus.regs, bus`trace
      ensures bus.regs[..] == old(bus.regs[..])[THRESH_INACT := ThresholdByte(inactivityThreshold)]
      ensures bus.regs[THRESH_INACT] as int == Limit(inactivityThreshold, LimitMin, LimitMax)
      ensures bus.trace == old(bus.trace) + [ByteWrite(THRESH_INACT, bus.regs[THRESH_INACT])]
    {
      var threshold := ThresholdByte(inactivityThreshold);
      bus.WriteByte(THRESH_INACT, threshold);
    }

    method GetInactivityThreshold() returns (threshold: nat)
      requires Valid()
      modifies bus`trace
      ensures threshold < 256 && threshold == bus.regs[THRESH_INACT] as nat
      ensures bus.trace == old(bus.trace) + [ByteRead(THRESH_INACT)]
    {
      var register := bus.ReadByte(THRESH_INACT);
      threshold := register as nat;
    }

    /** Writes the clamped inactivity time to TIME_INACT. */
    method SetTimeInactivity(timeInactivity: int)
      requires Valid()
      modifies bus.regs, bus`trace
      ensures bus.regs[..] == old(bus.regs[..])[TIME_INACT := ThresholdByte(timeInactivity)]
      ensures bus.regs[TIME_INACT] as int == Limit(timeInactivity, LimitMin, LimitMax)
      ensures bus.trace == old(bus.trace) + [ByteWrite(TIME_INACT, bus.regs[TIME_INACT])]
    {
      var time := ThresholdByte(timeInactivity);
      bus.WriteByte(TIME_INACT, time);
    }

    method GetTimeInactivity() returns (time: nat)
      requires Valid()
      modifies bus`trace
      ensures time < 256 && time == bus.regs[TIME_INACT] as nat
      ensures bus.trace == old(bus.trace) + [ByteRead(TIME_INACT)]
    {
      var register := bus.ReadByte(TIME_INACT);
      time := register as nat;
    }

    /** Routes interrupt `interruptBit` to pin INT2 (a non-zero pin) or INT1 (pin 0). */
    method SetInterruptMapping(interruptBit: nat, interruptPin: int)
      requires Valid() && (interruptBit < 8 || interruptPin == 0)
      modifies bus.regs, bus`trace
      ensures bus.regs[..] == old(bus.regs[..])[INT_MAP := WithBit(old(bus.regs[INT_MAP]), interruptBit, interruptPin != 0)]
      ensures BitOf(bus.regs[INT_MAP], interruptBit) == if interruptPin != 0 then 1 else 0
      ensures bus.trace == old(bus.trace) + [ByteRead(INT_MAP), ByteWrite(INT_MAP, bus.regs[INT_MAP])]
    {
      SetRegisterBit(INT_MAP, interruptBit, interruptPin != 0);
    }

    /** The enable bit of interrupt `interruptBit` in INT_ENABLE, as 0 or 1. */
    method IsInterruptEnabled(interruptBit: nat) returns (enabled: nat)
      requires Valid()
      modifies bus`trace
      ensures enabled <= 1
      ensures enabled == BitOf(bus.regs[INT_ENABLE], interruptBit)
      ensures bus.trace == old(bus.trace) + [ByteRead(INT_ENABLE)]
    {
      enabled := GetRegisterBit(INT_ENABLE, interruptBit);
    }

    /** Sets or clears the enable bit of interrupt `interruptBit` in INT_ENABLE. */
    method SetInterrupt(interruptBit: nat, state: bool)
      requires Valid() && (interruptBit < 8 || !state)
      modifies bus.regs, bus`trace
      ensures bus.regs[..] == old(bus.regs[..])[INT_ENABLE := WithBit(old(bus.regs[INT_ENABLE]), interruptBit, state)]
      ensures BitOf(bus.regs[INT_ENABLE], interruptBit) == if state then 1 else 0
      ensures bus.trace == old(bus.trace) + [ByteRead(INT_ENABLE), ByteWrite(INT_ENABLE, bus.regs[INT_ENABLE])]
    {
      SetRegisterBit(INT_ENABLE, interruptBit, state);
    }

    method ActivityInt(state: bool)
      requires Valid()
      modifies bus.regs, bus`trace
      ensures bus.regs[..] == old(bus.regs[..])[INT_ENABLE := WithBit(old(bus.regs[INT_ENABLE]), INT_ACTIVITY_BIT, state)]
      ensures bus.trace == old(bus.trace) + [ByteRead(INT_ENABLE), ByteWrite(INT_ENABLE, bus.regs[INT_ENABLE])]
    {
      if state {
        SetInterrupt(INT_ACTIVITY_BIT, true);
      } else {
        SetInterrupt(INT_ACTIVITY_BIT, false);
      }
    }

    method InactivityInt(state: bool)
      requires Valid()
      modifies bus.regs, bus`trace
      ensures bus.regs[..] == old(bus.regs[..])[INT_ENABLE := WithBit(old(bus.regs[INT_ENABLE]), INT_INACTIVITY_BIT, state)]
      ensures bus.trace == old(bus.trace) + [ByteRead(INT_ENABLE), ByteWrite(INT_ENABLE, bus.regs[INT_ENABLE])]
    {
      if state {
        SetInterrupt(INT_INACTIVITY_BIT, true);
      } else {
        SetInterrupt(INT_INACTIVITY_BIT, false);
      }
    }

    method DataReadyInt(state: bool)
      requires Valid()
      modifies bus.regs, bus`trace
      ensures bus.regs[..] == old(bus.regs[..])[INT_ENABLE := WithBit(old(bus.regs[INT_ENABLE]), INT_DATA_READY_BIT, state)]
      ensures bus.trace == old(bus.trace) + [ByteRead(INT_ENABLE), ByteWrite(INT_ENABLE, bus.regs[INT_ENABLE])]
    {
      if state {
        SetInterrupt(INT_DATA_READY_BIT, true);
      } else {
        SetInterrupt(INT_DATA_READY_BIT, false);
      }
    }

    method WatermarkInt(state: bool)
      requires Valid()
      modifies bus.regs, bus`trace
      ensures bus.regs[..] == old(bus.regs[..])[INT_ENABLE := WithBit(old(bus.regs[INT_ENABLE]), INT_WATERMARK_BIT, state)]
      ensures bus.trace == old(bus.trace) + [ByteRead(INT_ENABLE), ByteWrite(INT_ENABLE, bus.regs[INT_ENABLE])]
    {
      if state {
        SetInterrupt(INT_WATERMARK_BIT, true);
      } else {
        SetInterrupt(INT_WATERMARK_BIT, false);
      }
    }

    method OverrunInt(state: bool)
      requires Valid()
      modifies bus.regs, bus`trace
      ensures bus.regs[..] == old(bus.regs[..])[INT_ENABLE := WithBit(old(bus.regs[INT_ENABLE]), INT_OVERRUN_BIT, state)]
      ensures bus.trace == old(bus.trace) + [ByteRead(INT_ENABLE), ByteWrite(INT_ENABLE, bus.regs[INT_ENABLE])]
    {
      if state {
        SetInterrupt(INT_OVERRUN_BIT, true);
      } else {
        SetInterrupt(INT_OVERRUN_BIT, false);
      }
    }

    /** The FIFO mode held in bits 6-7 of FIFO_CTL. */
    method GetFifoMode() returns (mode: nat)
      requires Valid()
      modifies bus`trace
      ensures mode <= 3
      ensures mode == FifoModeOf(bus.regs[FIFO_CTL])
      ensures bus.trace == old(bus.trace) + [ByteRead(FIFO_CTL)]
    {
      var register := bus.ReadByte(FIFO_CTL);
      mode := FifoModeOf(register);
    }

    /** Writes `mode` into bits 6-7 of FIFO_CTL, keeping bits 0-5. */
    method SetFifoMode(mode: nat)
      requires Valid() && mode <= 3
      modifies bus.regs, bus`trace
      ensures bus.regs[..] == old(bus.regs[..])[FIFO_CTL := WithFifoMode(old(bus.regs[FIFO_CTL]), mode)]
      ensures FifoModeOf(bus.regs[FIFO_CTL]) == mode
      ensures bus.regs[FIFO_CTL] & 0x3F == old(bus.regs[FIFO_CTL]) & 0x3F
      ensures bus.trace == old(bus.trace) + [ByteRead(FIFO_CTL), ByteWrite(FIFO_CTL, bus.regs[FIFO_CTL])]
    {
      var register := bus.ReadByte(FIFO_CTL);
      bus.WriteByte(FIFO_CTL, WithFifoMode(register, mode));
    }

    /** The watermark threshold held in bits 0-4 of FIFO_CTL. */
    method GetFifoSamplesThreshhold() returns (samples: nat)
      requires Valid()
      modifies bus`trace
      ensures samples <= 31
      ensures samples == FifoSamplesOf(bus.regs[FIFO_CTL])
      ensures bus.trace == old(bus.trace) + [ByteRead(FIFO_CTL)]
    {
      var register := bus.ReadByte(FIFO_CTL);
      samples := FifoSamplesOf(register);
    }

    /** Writes `samples` into bits 0-4 of FIFO_CTL, keeping bits 5-7. */
    method SetFifoSamplesThreshhold(samples: nat)
      requires Valid() && samples <= 31
      modifies bus.regs, bus`trace
      ensures bus.regs[..] == old(bus.regs[..])[FIFO_CTL := WithFifoSamples(old(bus.regs[FIFO_CTL]), samples as bv8)]
      ensures FifoSamplesOf(bus.regs[FIFO_CTL]) == samples
      ensures bus.regs[FIFO_CTL] & 0xE0 == old(bus.regs[FIFO_CTL]) & 0xE0
      ensures bus.trace == old(bus.trace) + [ByteRead(FIFO_CTL), ByteWrite(FIFO_CTL, bus.regs[FIFO_CTL])]
    {
      var register := bus.ReadByte(FIFO_CTL);
      WithFifoSamplesInRange(register, samples);
      bus.WriteByte(FIFO_CTL, WithFifoSamples(register, samples as bv8));
    }

    /** The number of buffered samples held in bits 0-5 of FIFO_STATUS. */
    method GetFifoEntriesAmount() returns (entries: nat)
      requires Valid()
      modifies bus`trace
      ensures entries <= 63
      ensures entries == FifoEntriesOf(bus.regs[FIFO_STATUS])
      ensures bus.trace == old(bus.trace) + [ByteRead(FIFO_STATUS)]
    {
      var register := bus.ReadByte(FIFO_STATUS);
      entries := FifoEntriesOf(register);
    }

    /** Flushes the FIFO by switching to bypass and back to the mode it had.
        The one intermediate write has bypass in bits 6-7 and the old bits
        0-5; the second write restores the original byte. */
    method ClearFifo()
      requires Valid()
      modifies bus.regs, bus`trace
      ensures bus.regs[..] == old(bus.regs[..])
      ensures bus.trace == old(bus.trace) + [
                ByteRead(FIFO_CTL),
                ByteRead(FIFO_CTL), ByteWrite(FIFO_CTL, WithFifoMode(old(bus.regs[FIFO_CTL]), FIFO_MODE_BYPASS)),
                ByteRead(FIFO_CTL), ByteWrite(FIFO_CTL, old(bus.regs[FIFO_CTL]))]
      ensures FifoModeOf(WithFifoMode(old(bus.regs[FIFO_CTL]), FIFO_MODE_BYPASS)) == FIFO_MODE_BYPASS
      ensures WithFifoMode(old(bus.regs[FIFO_CTL]), FIFO_MODE_BYPASS) & 0x3F == old(bus.regs[FIFO_CTL]) & 0x3F
    {
      ghost var original := bus.regs[FIFO_CTL];
      var mode := GetFifoMode();
      SetFifoMode(FIFO_MODE_BYPASS);
      SetFifoMode(mode);
      FifoModeRestore(original);
      assert bus.regs[..] == old(bus.regs[..]);
    }

    /** One read of INT_SOURCE; all five cached flags are taken from that
        single byte, and no register is written. */
    method UpdateIntSourceStatuses()
      requires Valid()
      modifies this`intSourceDataReady, this`intSourceActivity, this`intSourceInactivity,
               this`intSourceWatermark, this`intSourceOverrun, bus`trace
      ensures intSourceDataReady == BitOf(bus.regs[INT_SOURCE], INT_DATA_READY_BIT)
      ensures intSourceActivity == BitOf(bus.regs[INT_SOURCE], INT_ACTIVITY_BIT)
      ensures intSourceInactivity == BitOf(bus.regs[INT_SOURCE], INT_INACTIVITY_BIT)
      ensures intSourceWatermark == BitOf(bus.regs[INT_SOURCE], INT_WATERMARK_BIT)
      ensures intSourceOverrun == BitOf(bus.regs[INT_SOURCE], INT_OVERRUN_BIT)
      ensures bus.regs[..] == old(bus.regs[..])
      ensures bus.trace == old(bus.trace) + [ByteRead(INT_SOURCE)]
    {
      var register := bus.ReadByte(INT_SOURCE);
      intSourceDataReady := BitOf(register, INT_DATA_READY_BIT);
      intSourceActivity := BitOf(register, INT_ACTIVITY_BIT);
      intSourceInactivity := BitOf(register, INT_INACTIVITY_BIT);
      intSourceWatermark := BitOf(register, INT_WATERMARK_BIT);
      intSourceOverrun := BitOf(register, INT_OVERRUN_BIT);
    }

    /** The low-power bit of BW_RATE, as 0 or 1. */
    method IsLowPower() returns (lowPower: nat)
      requires Valid()
      modifies bus`trace
      ensures lowPower <= 1
      ensures lowPower == BitOf(bus.regs[BW_RATE], LOW_POWER_BIT)
      ensures bus.trace == old(bus.trace) + [ByteRead(BW_RATE)]
    {
      lowPower := GetRegisterBit(BW_RATE, LOW_POWER_BIT);
    }

    method LowPowerOn()
      requires Valid()
      modifies bus.regs, bus`trace
      ensures bus.regs[..] == old(bus.regs[..])[BW_RATE := WithBit(old(bus.regs[BW_RATE]), LOW_POWER_BIT, true)]
      ensures BitOf(bus.regs[BW_RATE], LOW_POWER_BIT) == 1
      ensures bus.trace == old(bus.trace) + [ByteRead(BW_RATE), ByteWrite(BW_RATE, bus.regs[BW_RATE])]
    {
      SetRegisterBit(BW_RATE, LOW_POWER_BIT, true);
    }

    method LowPowerOff()
      requires Valid()
      modifies bus.regs, bus`trace
      ensures bus.regs[..] == old(bus.regs[..])[BW_RATE := WithBit(old(bus.regs[BW_RATE]), LOW_POWER_BIT, false)]
      ensures BitOf(bus.regs[BW_RATE], LOW_POWER_BIT) == 0
      ensures bus.trace == old(bus.trace) + [ByteRead(BW_RATE), ByteWrite(BW_RATE, bus.regs[BW_RATE])]
    {
      SetRegisterBit(BW_RATE, LOW_POWER_BIT, false);
    }

    method SetLowPower(state: bool)
      requires Valid()
      modifies bus.regs, bus`trace
      ensures bus.regs[..] == old(bus.regs[..])[BW_RATE := WithBit(old(bus.regs[BW_RATE]), LOW_POWER_BIT, state)]
      ensures BitOf(bus.regs[BW_RATE], LOW_POWER_BIT) == if state then 1 else 0
      ensures bus.trace == old(bus.trace) + [ByteRead(BW_RATE), ByteWrite(BW_RATE, bus.regs[BW_RATE])]
    {
      if state {
        LowPowerOn();
      } else {
        LowPowerOff();
      }
    }

    /** Overwrites the whole of BW_RATE with `bw`, low-power bit included. */
    method SetBandwidth(bw: bv8)
      requires Valid()
      modifies bus.regs, bus`trace
      ensures bus.regs[..] == old(bus.regs[..])[BW_RATE := bw]
      ensures BitOf(bus.regs[BW_RATE], LOW_POWER_BIT) == BitOf(bw, LOW_POWER_BIT)
      ensures bus.trace == old(bus.trace) + [ByteWrite(BW_RATE, bw)]
    {
      bus.WriteByte(BW_RATE, bw);
    }

    method GetBandwidth() returns (bw: nat)
      requires Valid()
      modifies bus`trace
      ensures bw < 256 && bw == bus.regs[BW_RATE] as nat
      ensures bus.trace == old(bus.trace) + [ByteRead(BW_RATE)]
    {
      var register := bus.ReadByte(BW_RATE);
      bw := register as nat;
    }
  }
}
