/** Properties that relate several driver calls on one handle: what a
    getter returns after the matching setter, and the register contents
    left by the call sequences the driver's documentation describes. */
module Scenarios {
  import opened Options
  import opened Registers
  import opened BitFields
  import opened Adxl313

  /** Setting a bit and reading it back gives the value written. */
  method SetThenGetRegisterBit(d: QwiicAdxl313, reg: nat, bitPos: nat, state: bool) returns (bit: nat)
    requires d.Valid() && reg < RegisterCount && (bitPos < 8 || !state)
    modifies d.bus.regs, d.bus`trace
    ensures bit == if state then 1 else 0
  {
    d.SetRegisterBit(reg, bitPos, state);
    bit := d.GetRegisterBit(reg, bitPos);
  }

  /** From an all-zero POWER_CTL, standby then measure leaves exactly 0x08. */
  method StandbyThenMeasure(d: QwiicAdxl313)
    requires d.Valid() && d.bus.regs[POWER_CTL] == 0x00
    modifies d.bus.regs, d.bus`trace
    ensures d.bus.regs[POWER_CTL] == 0x08
    ensures forall r :: 0 <= r < RegisterCount && r != POWER_CTL ==> d.bus.regs[r] == old(d.bus.regs[r])
  {
    d.Standby();
    d.MeasureModeOn();
    StandbyThenMeasureFromZero();
  }

  /** Autosleep on then off: link stays set, autosleep ends clear, and every
      other bit of POWER_CTL is as it was. */
  method AutosleepCycle(d: QwiicAdxl313)
    requires d.Valid()
    modifies d.bus.regs, d.bus`trace
    ensures d.bus.regs[POWER_CTL] == (old(d.bus.regs[POWER_CTL]) | 0x20) & 0xEF
    ensures BitOf(d.bus.regs[POWER_CTL], LINK_BIT) == 1
    ensures BitOf(d.bus.regs[POWER_CTL], AUTOSLEEP_BIT) == 0
  {
    ghost var before := d.bus.regs[POWER_CTL];
    d.AutosleepOn();
    d.AutosleepOff();
    AutosleepOnThenOff(before);
  }

  /** The range read back after a range write is the one written. */
  method SetThenGetRange(d: QwiicAdxl313, code: nat) returns (halfG: Option<nat>)
    requires d.Valid() && code <= 3
    modifies d.bus.regs, d.bus`trace
    ensures halfG == Some(Pow2(code))
  {
    d.SetRange(code);
    halfG := d.GetRange();
  }

  /** The threshold read back after a threshold write is the clamped value. */
  method SetThenGetActivityThreshold(d: QwiicAdxl313, threshold: int) returns (stored: nat)
    requires d.Valid()
    modifies d.bus.regs, d.bus`trace
    ensures stored == Limit(threshold, LimitMin, LimitMax)
    ensures threshold == 300 ==> stored == 255
    ensures threshold == 0 ==> stored == 1
  {
    d.SetActivityThreshold(threshold);
    stored := d.GetActivityThreshold();
  }

  method SetThenGetInactivityThreshold(d: QwiicAdxl313, threshold: int) returns (stored: nat)
    requires d.Valid()
    modifies d.bus.regs, d.bus`trace
    ensures stored == Limit(threshold, LimitMin, LimitMax)
  {
    d.SetInactivityThreshold(threshold);
    stored := d.GetInactivityThreshold();
  }

  method SetThenGetTimeInactivity(d: QwiicAdxl313, time: int) returns (stored: nat)
    requires d.Valid()
    modifies d.bus.regs, d.bus`trace
    ensures stored == Limit(time, LimitMin, LimitMax)
  {
    d.SetTimeInactivity(time);
    stored := d.GetTimeInactivity();
  }

  /** Mode and watermark threshold set one after the other both read back. */
  method SetThenGetFifoFields(d: QwiicAdxl313, mode: nat, samples: nat) returns (modeRead: nat, samplesRead: nat)
    requires d.Valid() && mode <= 3 && samples <= 31
    modifies d.bus.regs, d.bus`trace
    ensures modeRead == mode && samplesRead == samples
  {
    d.SetFifoMode(mode);
    d.SetFifoSamplesThreshhold(samples);
    SamplesKeepMode(WithFifoMode(old(d.bus.regs[FIFO_CTL]), mode), samples);
    modeRead := d.GetFifoMode();
    samplesRead := d.GetFifoSamplesThreshhold();
  }

  /** Low power on, then a bandwidth code without bit 4: the bandwidth write
      replaces the whole of BW_RATE, so low power reads back as off. */
  method LowPowerThenBandwidth(d: QwiicAdxl313) returns (lowPower: nat)
    requires d.Valid()
    modifies d.bus.regs, d.bus`trace
    ensures d.bus.regs[BW_RATE] == BW_12_5
    ensures lowPower == 0
  {
    d.LowPowerOn();
    d.SetBandwidth(BW_12_5);
    lowPower := d.IsLowPower();
  }
}
