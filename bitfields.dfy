/** Byte-level view of the driver's registers: single bits, the multi-bit
    fields packed into DATA_FORMAT, FIFO_CTL and FIFO_STATUS, the range
    decode and the saturating clamp used by the threshold setters.  Every
    read-modify-write operation of the driver computes its new register byte
    with one of the functions here. */
module BitFields {
  import opened Registers
  import opened Options

  /** Bit `p` of `b` as 0 or 1, as `(b >> p) & 1` computes it; a position
      beyond the byte reads as 0. */
  function BitOf(b: bv8, p: nat): (r: nat)
    ensures r <= 1
    ensures r == 1 <==> p < 8 && b & (1 << p) != 0
  {
    if p < 8 then ((b >> p) & 1) as nat else 0
  }

  /** Bit `q` after forcing bit `p` of `b` to `s` with a one-bit mask. */
  lemma MaskedBit(b: bv8, p: nat, s: bool, q: nat)
    requires p < 8
    ensures BitOf(if s then b | (1 << p) else b & !(1 << p), q)
         == (if q == p then (if s then 1 else 0) else BitOf(b, q))
  {
  }

  lemma MaskedBits(b: bv8, p: nat, s: bool)
    requires p < 8
    ensures forall q: nat ::
              BitOf(if s then b | (1 << p) else b & !(1 << p), q)
              == (if q == p then (if s then 1 else 0) else BitOf(b, q))
  {
    forall q: nat
      ensures BitOf(if s then b | (1 << p) else b & !(1 << p), q)
              == (if q == p then (if s then 1 else 0) else BitOf(b, q))
    {
      MaskedBit(b, p, s, q);
    }
  }

  /** `b` with bit `p` forced to `s`: OR with the one-bit mask to set it,
      AND with its complement to clear it.  Clearing a position beyond the
      byte ANDs with a mask whose low eight bits are all set, so the byte is
      kept; setting one would produce a value wider than a byte. */
  function WithBit(b: bv8, p: nat, s: bool): (r: bv8)
    requires p < 8 || !s
    ensures BitOf(r, p) == (if s then 1 else 0)
    ensures forall q: nat :: q != p ==> BitOf(r, q) == BitOf(b, q)
  {
    if p >= 8 then b
    else
      MaskedBits(b, p, s);
      if s then b | (1 << p) else b & !(1 << p)
  }

  /** Two bytes that agree on all eight bits are equal. */
  lemma {:induction false} BitsDetermineByte(a: bv8, b: bv8)
    requires forall q: nat :: q < 8 ==> BitOf(a, q) == BitOf(b, q)
    ensures a == b
  {
    assert BitOf(a, 0) == BitOf(b, 0);
    assert BitOf(a, 1) == BitOf(b, 1);
    assert BitOf(a, 2) == BitOf(b, 2);
    assert BitOf(a, 3) == BitOf(b, 3);
    assert BitOf(a, 4) == BitOf(b, 4);
    assert BitOf(a, 5) == BitOf(b, 5);
    assert BitOf(a, 6) == BitOf(b, 6);
    assert BitOf(a, 7) == BitOf(b, 7);
  }

  /** Writing a bit with the value it already has leaves the byte as it was. */
  lemma WithBitUnchanged(b: bv8, p: nat)
    ensures WithBit(b, p, BitOf(b, p) == 1) == b
  {
    BitsDetermineByte(WithBit(b, p, BitOf(b, p) == 1), b);
  }

  /** A second write to the same bit supersedes the first. */
  lemma WithBitOverwrite(b: bv8, p: nat, s: bool, t: bool)
    requires p < 8 || (!s && !t)
    ensures WithBit(WithBit(b, p, s), p, t) == WithBit(b, p, t)
  {
    BitsDetermineByte(WithBit(WithBit(b, p, s), p, t), WithBit(b, p, t));
  }

  /** Bits 0-1 of DATA_FORMAT: the range code. */
  function RangeCode(b: bv8): (code: nat)
    ensures code <= 3
    ensures code == b as int % 4
    ensures code == BitOf(b, 0) + 2 * BitOf(b, 1)
  {
    (b & 0x03) as nat
  }

  /** The DATA_FORMAT byte written by a range change: the new code in bits
      0-1, bits 2, 3, 5, 6 and 7 kept, bit 4 cleared by the mask 0b11101100. */
  function WithRange(b: bv8, code: nat): (r: bv8)
    requires code <= 3
    ensures RangeCode(r) == code
    ensures r & 0xEC == b & 0xEC
    ensures BitOf(r, 4) == 0
  {
    (code as bv8) | (b & 0xEC)
  }

  function Pow2(n: nat): nat
  {
    if n == 0 then 1 else 2 * Pow2(n - 1)
  }

  /** Full-scale range of a range code, in units of 0.5 g; a code outside
      0..3 has no range and gives None. */
  function RangeScale(code: nat): (halfG: Option<nat>)
    ensures halfG.Some? <==> code <= 3
    ensures halfG.Some? ==> halfG.value == Pow2(code)
  {
    if code == RANGE_05_G then Some(1)
    else if code == RANGE_1_G then Some(2)
    else if code == RANGE_2_G then Some(4)
    else if code == RANGE_4_G then Some(8)
    else None
  }

  /** The range decode of any DATA_FORMAT byte lands on a defined range:
      the fallback branch cannot be taken. */
  lemma RangeScaleDefined(b: bv8)
    ensures RangeScale(RangeCode(b)).Some?
  {
  }

  /** Distinct range codes decode to distinct ranges. */
  lemma RangeScaleInjective(c1: nat, c2: nat)
    requires c1 <= 3 && c2 <= 3
    requires RangeScale(c1) == RangeScale(c2)
    ensures c1 == c2
  {
  }

  /** Bits 6-7 of FIFO_CTL: the FIFO mode (bypass, FIFO, stream, trigger). */
  function FifoModeOf(b: bv8): (mode: nat)
    ensures mode <= 3
    ensures mode == b as int / 64
    ensures mode == BitOf(b, 6) + 2 * BitOf(b, 7)
  {
    ((b & 0xC0) >> 6) as nat
  }

  /** The FIFO_CTL byte written by a mode change: bits 0-5 kept, the mode
      shifted into bits 6-7. */
  function WithFifoMode(b: bv8, mode: nat): (r: bv8)
    requires mode <= 3
    ensures FifoModeOf(r) == mode
    ensures r & 0x3F == b & 0x3F
  {
    (b & 0x3F) | ((mode as bv8) << 6)
  }

  /** Bits 0-4 of FIFO_CTL: the FIFO watermark sample threshold. */
  function FifoSamplesOf(b: bv8): (samples: nat)
    ensures samples <= 31
    ensures samples == b as int % 32
  {
    (b & 0x1F) as nat
  }

  /** The FIFO_CTL byte written by a threshold change: bits 5-7 kept and the
      argument ORed in unmasked, so an argument above 31 also sets bits of
      its own among 5-7. */
  function WithFifoSamples(b: bv8, samples: bv8): (r: bv8)
    ensures r & 0xE0 == (b & 0xE0) | (samples & 0xE0)
    ensures FifoSamplesOf(r) == (samples & 0x1F) as nat
  {
    (b & 0xE0) | samples
  }

  /** Bits 0-5 of FIFO_STATUS: the number of buffered samples. */
  function FifoEntriesOf(b: bv8): (entries: nat)
    ensures entries <= 63
    ensures entries == b as int % 64
  {
    (b & 0x3F) as nat
  }

  /** With a threshold in 0..31 the threshold write keeps bits 5-7 and the
      threshold reads back. */
  lemma WithFifoSamplesInRange(b: bv8, samples: nat)
    requires samples <= 31
    ensures WithFifoSamples(b, samples as bv8) & 0xE0 == b & 0xE0
    ensures FifoSamplesOf(WithFifoSamples(b, samples as bv8)) == samples
  {
  }

  /** The mode and threshold writes leave each other's field alone, so after
      both, in either order, both fields hold what was written. */
  lemma FifoFieldsIndependent(b: bv8, mode: nat, samples: nat)
    requires mode <= 3 && samples <= 31
    ensures FifoSamplesOf(WithFifoMode(b, mode)) == FifoSamplesOf(b)
    ensures FifoModeOf(WithFifoSamples(b, samples as bv8)) == FifoModeOf(b)
    ensures WithFifoSamples(WithFifoMode(b, mode), samples as bv8)
         == WithFifoMode(WithFifoSamples(b, samples as bv8), mode)
  {
    ModeKeepsSamples(b, mode);
    SamplesKeepMode(b, samples);
    FifoWritesCommute(b, mode, samples);
  }

  lemma ModeKeepsSamples(b: bv8, mode: nat)
    requires mode <= 3
    ensures FifoSamplesOf(WithFifoMode(b, mode)) == FifoSamplesOf(b)
  {
    var r := WithFifoMode(b, mode);
    assert r & 0x1F == (r & 0x3F) & 0x1F;
  }

  lemma SamplesKeepMode(b: bv8, samples: nat)
    requires samples <= 31
    ensures FifoModeOf(WithFifoSamples(b, samples as bv8)) == FifoModeOf(b)
  {
    var r := WithFifoSamples(b, samples as bv8);
    assert r & 0xC0 == (r & 0xE0) & 0xC0;
  }

  lemma FifoWritesCommute(b: bv8, mode: nat, samples: nat)
    requires mode <= 3 && samples <= 31
    ensures WithFifoSamples(WithFifoMode(b, mode), samples as bv8)
         == WithFifoMode(WithFifoSamples(b, samples as bv8), mode)
  {
    var s := samples as bv8;
    var m: bv8 := mode as bv8;
    assert s & 0xE0 == 0;
    assert m & 0xFC == 0;
    calc {
      WithFifoSamples(WithFifoMode(b, mode), s);
      (((b & 0x3F) | (m << 6)) & 0xE0) | s;
      (((b & 0xE0) | s) & 0x3F) | (m << 6);
      WithFifoMode(WithFifoSamples(b, s), mode);
    }
  }

  /** Bypass followed by the previous mode writes back the original byte. */
  lemma FifoModeRestore(b: bv8)
    ensures WithFifoMode(WithFifoMode(b, FIFO_MODE_BYPASS), FifoModeOf(b)) == b
  {
  }

  /** A threshold of 32, which the driver's documentation allows, sets bit 5
      of FIFO_CTL and reads back as 0. */
  lemma FifoSamplesThirtyTwo(b: bv8)
    ensures BitOf(WithFifoSamples(b, 32), 5) == 1
    ensures FifoSamplesOf(WithFifoSamples(b, 32)) == 0
  {
  }

  /** Lower and upper bounds of the threshold clamp. */
  const LimitMin: int := 1
  const LimitMax: int := 255

  /** Saturating clamp of `num` into [minimum, maximum]. */
  function Limit(num: int, minimum: int, maximum: int): (r: int)
    ensures minimum <= maximum ==> minimum <= r <= maximum
    ensures minimum <= num <= maximum ==> r == num
    ensures num > maximum ==> r == maximum
    ensures num < minimum <= maximum ==> r == minimum
  {
    if num > maximum then maximum
    else if num < minimum then minimum
    else num
  }

  /** The byte whose unsigned value is `v`, built by counting up from zero. */
  function ToByte(v: nat): (b: bv8)
    requires v < 256
    ensures b as int == v
  {
    if v == 0 then 0 else ToByte(v - 1) + 1
  }

  /** The byte written for a threshold: the clamped value, which fits. */
  function ThresholdByte(num: int): (b: bv8)
    ensures b as int == Limit(num, LimitMin, LimitMax)
  {
    ToByte(Limit(num, LimitMin, LimitMax))
  }

  /** Clamping twice is clamping once. */
  lemma LimitIdempotent(num: int)
    ensures Limit(Limit(num, LimitMin, LimitMax), LimitMin, LimitMax) == Limit(num, LimitMin, LimitMax)
  {
  }

  /** The clamp never reverses the order of two inputs. */
  lemma LimitMonotone(a: int, b: int)
    requires a <= b
    ensures Limit(a, LimitMin, LimitMax) <= Limit(b, LimitMin, LimitMax)
  {
  }

  /** Measure bit: standby then measure, starting from an all-zero POWER_CTL,
      leaves only bit 3 set. */
  lemma StandbyThenMeasureFromZero()
    ensures WithBit(WithBit(0, MEASURE_BIT, false), MEASURE_BIT, true) == 0x08
  {
  }

  /** Autosleep on sets link and autosleep on top of the old byte; autosleep
      off afterwards clears autosleep only, so link stays set. */
  lemma AutosleepOnThenOff(b: bv8)
    ensures WithBit(WithBit(b, LINK_BIT, true), AUTOSLEEP_BIT, true) == b | 0x30
    ensures WithBit(WithBit(WithBit(b, LINK_BIT, true), AUTOSLEEP_BIT, true), AUTOSLEEP_BIT, false)
         == (b | 0x20) & 0xEF
  {
  }
}
