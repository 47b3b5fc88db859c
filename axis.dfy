/** Decoding of the acceleration sample: the device reports each axis as a
    16-bit two's-complement value stored low byte first, and the six data
    registers DATA_X0..DATA_Z1 hold x, y and z in that order. */
module AxisData {
  import opened Registers
  import opened BitFields

  /** Smallest and largest value of a signed 16-bit reading. */
  const AxisMin: int := -32768
  const AxisMax: int := 32767

  /** A decoded sample: raw counts for the three axes. */
  datatype Sample = Sample(x: int, y: int, z: int)

  /** The unsigned word formed from a byte pair: `hi` weighs 256, `lo` weighs 1. */
  function Word(lo: bv8, hi: bv8): (w: nat)
    ensures w < 65536
  {
    hi as nat * 256 + lo as nat
  }

  /** The word is the driver's `(hi << 8) | lo`: the OR of the shifted high
      byte with the low byte, computed on 16 bits. */
  lemma WordIsShiftOr(lo: bv8, hi: bv8)
    ensures Word(lo, hi) == (((hi as bv16) << 8) | (lo as bv16)) as int
  {
  }

  /** One axis: the word, less 65536 when it exceeds 32767. */
  function DecodeAxis(lo: bv8, hi: bv8): (v: int)
    ensures AxisMin <= v <= AxisMax
  {
    var w := Word(lo, hi);
    if w > 32767 then w - 65536 else w
  }

  /** The decoded value is the two's-complement reading of the word: it is
      negative exactly when the top bit of the high byte is set, and it is
      congruent to the word modulo 65536. */
  lemma DecodeAxisTwosComplement(lo: bv8, hi: bv8)
    ensures DecodeAxis(lo, hi) < 0 <==> hi & 0x80 != 0
    ensures (DecodeAxis(lo, hi) + 65536) % 65536 == hi as int * 256 + lo as int
  {
  }

  /** Two's-complement encoding of a signed 16-bit reading as (low, high). */
  function EncodeAxis(v: int): (bytes: (bv8, bv8))
    requires AxisMin <= v <= AxisMax
  {
    var w := if v < 0 then v + 65536 else v;
    (ToByte(w % 256), ToByte(w / 256))
  }

  /** Splitting a word back into its low and high byte. */
  lemma SplitWord(w: int, lo: bv8, hi: bv8)
    requires w == hi as int * 256 + lo as int
    ensures ToByte(w % 256) == lo && ToByte(w / 256) == hi
  {
    DivModByte(w, hi as int, lo as int);
    SameValueSameByte(ToByte(w % 256), lo);
    SameValueSameByte(ToByte(w / 256), hi);
  }

  /** Integer quotient and remainder by 256 of a word given as two digits. */
  lemma DivModByte(w: int, h: int, l: int)
    requires 0 <= l < 256 && w == h * 256 + l
    ensures w % 256 == l && w / 256 == h
  {
  }

  /** A byte is determined by its unsigned value. */
  lemma SameValueSameByte(a: bv8, b: bv8)
    requires a as int == b as int
    ensures a == b
  {
  }

  /** Re-encoding a decoded axis gives back the two bytes it came from. */
  lemma {:induction false} EncodeDecodeAxis(lo: bv8, hi: bv8)
    ensures EncodeAxis(DecodeAxis(lo, hi)) == (lo, hi)
  {
    var w := hi as int * 256 + lo as int;
    var v := DecodeAxis(lo, hi);
    assert (if v < 0 then v + 65536 else v) == w;
    SplitWord(w, lo, hi);
  }

  /** Decoding the encoding of a reading gives the reading back. */
  lemma {:induction false} DecodeEncodeAxis(v: int)
    requires AxisMin <= v <= AxisMax
    ensures DecodeAxis(EncodeAxis(v).0, EncodeAxis(v).1) == v
  {
    var w := if v < 0 then v + 65536 else v;
    var l, h := w % 256, w / 256;
    assert w == h * 256 + l;
    var (lo, hi) := EncodeAxis(v);
    assert Word(lo, hi) == w;
  }

  /** The boundary byte pairs of the signed range, and the smallest positive one. */
  lemma DecodeAxisExamples()
    ensures DecodeAxis(0xFF, 0x7F) == 32767
    ensures DecodeAxis(0x00, 0x80) == -32768
    ensures DecodeAxis(0x01, 0x00) == 1
    ensures DecodeAxis(0xFF, 0xFF) == -1
  {
  }

  /** The six data bytes, read from DATA_X0 on, decoded axis by axis with
      the same rule. */
  function DecodeSample(buf: seq<bv8>): (s: Sample)
    requires |buf| == SampleBytes
  {
    Sample(DecodeAxis(buf[0], buf[1]), DecodeAxis(buf[2], buf[3]), DecodeAxis(buf[4], buf[5]))
  }

  /** The six bytes a sample is stored as. */
  function EncodeSample(s: Sample): (buf: seq<bv8>)
    requires AxisMin <= s.x <= AxisMax && AxisMin <= s.y <= AxisMax && AxisMin <= s.z <= AxisMax
    ensures |buf| == SampleBytes
  {
    var (xl, xh) := EncodeAxis(s.x);
    var (yl, yh) := EncodeAxis(s.y);
    var (zl, zh) := EncodeAxis(s.z);
    [xl, xh, yl, yh, zl, zh]
  }

  /** The sample decode loses nothing: re-encoding gives back the six bytes. */
  lemma {:induction false} EncodeDecodeSample(buf: seq<bv8>)
    requires |buf| == SampleBytes
    ensures EncodeSample(DecodeSample(buf)) == buf
  {
    var s := DecodeSample(buf);
    EncodeDecodeAxis(buf[0], buf[1]);
    EncodeDecodeAxis(buf[2], buf[3]);
    EncodeDecodeAxis(buf[4], buf[5]);
    EncodeSampleOf(s, buf);
  }

  /** A sample whose three axes encode to the three byte pairs of `buf`
      encodes to `buf`. */
  lemma EncodeSampleOf(s: Sample, buf: seq<bv8>)
    requires |buf| == SampleBytes
    requires AxisMin <= s.x <= AxisMax && AxisMin <= s.y <= AxisMax && AxisMin <= s.z <= AxisMax
    requires EncodeAxis(s.x) == (buf[0], buf[1])
    requires EncodeAxis(s.y) == (buf[2], buf[3])
    requires EncodeAxis(s.z) == (buf[4], buf[5])
    ensures EncodeSample(s) == buf
  {
  }

  /** Every reading triple is the decode of its encoding. */
  lemma {:induction false} DecodeEncodeSample(s: Sample)
    requires AxisMin <= s.x <= AxisMax && AxisMin <= s.y <= AxisMax && AxisMin <= s.z <= AxisMax
    ensures DecodeSample(EncodeSample(s)) == s
  {
    DecodeEncodeAxis(s.x);
    DecodeEncodeAxis(s.y);
    DecodeEncodeAxis(s.z);
  }
}
