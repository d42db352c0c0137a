/** The PCMU encoder of the downlink (internal/app/bot/downlink_audio.go) against the decoder of
    ITU-T Recommendation G.711, which the repository does not contain. */
module MuLaw {
  import opened Arith

  type Sample = x: int | -0x8000 <= x < 0x8000
  type Byte = x: int | 0 <= x < 0x100

  const BIAS := 0x84
  const CLIP := 32635

  /** Sample after the clipping that the encoder applies to its magnitude. */
  function Clip(s: Sample): (c: int)
    ensures -32635 <= c <= 32635 && (-32635 <= s <= 32635 ==> c == s) && (s < 0 <==> c < 0)
    ensures s > 32635 ==> c == 32635
    ensures s < -32635 ==> c == -32635
  {
    if s > CLIP then CLIP else if s < -CLIP then -CLIP else s
  }

  function Magnitude(s: Sample): nat {
    if s < 0 then -Clip(s) else Clip(s)
  }

  function Pow2(e: nat): (r: nat)
    ensures r > 0
  {
    if e == 0 then 1 else 2 * Pow2(e - 1)
  }

  // The decoder: G.711, Tables 2a and 2b, in 16-bit units. A code word is transmitted inverted: one
  // bit of sign, three of segment, four of interval.

  function Inverted(c: Byte): Byte {
    255 - c
  }

  function SignBit(c: Byte): nat {
    Inverted(c) / 128
  }

  function Segment(c: Byte): nat {
    Inverted(c) / 16 % 8
  }

  function Interval(c: Byte): nat {
    Inverted(c) % 16
  }

  function DecodedMagnitude(segment: nat, interval: nat): int {
    (2 * interval + 33) * Pow2(segment + 2) - BIAS
  }

  function Decode(c: Byte): int {
    var m := DecodedMagnitude(Segment(c), Interval(c));
    if SignBit(c) == 1 then -m else m
  }

  /** The tables by numbers: where each segment begins, and how wide its intervals are. */
  const SEGMENT_STARTS := [0, 132, 396, 924, 1980, 4092, 8316, 16764]
  const INTERVAL_WIDTHS := [8, 16, 32, 64, 128, 256, 512, 1024]

  lemma DecodesByTable(e: nat, m: nat)
    requires e < 8 && m < 16
    ensures Decode(255 - 16 * e - m) == SEGMENT_STARTS[e] + m * INTERVAL_WIDTHS[e]
    ensures Decode(127 - 16 * e - m) == -Decode(255 - 16 * e - m)
  {
    WordDecodes(255 - 16 * e - m, e, m);
    TableEntries(e);
    Spread(m, Pow2(e + 2));
  }

  lemma TableEntries(e: nat)
    requires e < 8
    ensures SEGMENT_STARTS[e] == 33 * Pow2(e + 2) - 132 && INTERVAL_WIDTHS[e] == 2 * Pow2(e + 2)
  {
    PowersOfTwo();
  }

  lemma Spread(m: int, p: int)
    ensures (2 * m + 33) * p == m * (2 * p) + 33 * p
  {
  }

  lemma WordDecodes(c: Byte, e: nat, m: nat)
    requires c >= 128 && 255 - c == 16 * e + m && e < 8 && m < 16
    ensures Decode(c) == (2 * m + 33) * Pow2(e + 2) - 132
    ensures Decode(c - 128) == -Decode(c)
  {
    WordFields(c, e, m);
    WordFields(c - 128, 8 + e, m);
  }

  lemma WordFields(c: Byte, n: nat, m: nat)
    requires 255 - c == 16 * n + m && n < 16 && m < 16
    ensures SignBit(c) == (if n >= 8 then 1 else 0) && Segment(c) == n % 8 && Interval(c) == m
  {
    assert Inverted(c) / 16 == n;
  }

  const NEGATIVE_ZERO: Byte := 0x7F

  // The encoder.

  /** Segment of a biased magnitude: the position of its leading bit above bit 7. */
  function Exponent(biased: nat): nat
    requires BIAS <= biased < 0x8000
  {
    if biased < 0x100 then 0 else if biased < 0x200 then 1 else if biased < 0x400 then 2
    else if biased < 0x800 then 3 else if biased < 0x1000 then 4 else if biased < 0x2000 then 5
    else if biased < 0x4000 then 6 else 7
  }

  function Encode(s: Sample): Byte {
    var biased := Magnitude(s) + BIAS;
    var e := Exponent(biased);
    EncodedByte(s < 0, e, biased / Pow2(e + 3) % 16)
  }

  function EncodedByte(negative: bool, e: nat, interval: nat): Byte
    requires e < 8 && interval < 16
  {
    255 - ((if negative then 128 else 0) + 16 * e + interval)
  }

  lemma PowersOfTwo()
    ensures Pow2(0) == 1 && Pow2(1) == 2 && Pow2(2) == 4 && Pow2(3) == 8 && Pow2(4) == 16
    ensures Pow2(5) == 32 && Pow2(6) == 64 && Pow2(7) == 128 && Pow2(8) == 256 && Pow2(9) == 512
    ensures Pow2(10) == 1024 && Pow2(11) == 2048 && Pow2(12) == 4096 && Pow2(13) == 8192
    ensures Pow2(14) == 16384 && Pow2(15) == 32768
  {
    assert Pow2(2) == 4 && Pow2(4) == 16 && Pow2(6) == 64 && Pow2(8) == 256;
    assert Pow2(10) == 1024 && Pow2(12) == 4096 && Pow2(14) == 16384;
  }

  /** linearToMuLaw as written: the mask walks down from bit 14 until it meets the leading bit. For a
      one-bit mask, `pcm & mask` is zero exactly if pcm / mask is even; `x & 0x0F` is x % 16; the three
      fields do not overlap, so `|` adds them; `^b` on a byte is 255 - b. */
  method LinearToMuLaw(sample: Sample) returns (code: Byte)
    ensures code == Encode(sample)
  {
    var sign := 0;
    var pcm: int := sample;
    if pcm < 0 {
      sign := 0x80;
      pcm := -pcm;
    }
    if pcm > CLIP {
      pcm := CLIP;
    }
    pcm := pcm + BIAS;

    var exponent: nat := 7;
    var mask := 0x4000;
    PowersOfTwo();
    while exponent > 0 && pcm / mask % 2 == 0
      invariant 0 <= exponent <= 7 && mask == Pow2(exponent + 7)
      invariant BIAS <= pcm < 2 * mask
    {
      exponent := exponent - 1;
      mask := mask / 2;
    }
    assert exponent == Exponent(pcm);
    var mantissa := pcm / Pow2(exponent + 3) % 16;
    code := 255 - (sign + 16 * exponent + mantissa);
  }

  /** The fields of a code word are what the encoder put there. */
  lemma EncodedFields(s: Sample)
    ensures SignBit(Encode(s)) == if s < 0 then 1 else 0
    ensures Segment(Encode(s)) == Exponent(Magnitude(s) + BIAS)
    ensures Interval(Encode(s)) == (Magnitude(s) + BIAS) / Pow2(Exponent(Magnitude(s) + BIAS) + 3) % 16
  {
    var biased := Magnitude(s) + BIAS;
    FieldsOfByte(s < 0, Exponent(biased), biased / Pow2(Exponent(biased) + 3) % 16);
  }

  lemma FieldsOfByte(negative: bool, e: nat, interval: nat)
    requires e < 8 && interval < 16
    ensures var c := EncodedByte(negative, e, interval);
      SignBit(c) == (if negative then 1 else 0) && Segment(c) == e && Interval(c) == interval
  {
  }

  /** Where a biased magnitude lies: interval m of segment e, of width 2^(e+3). */
  lemma InItsInterval(biased: nat)
    requires BIAS <= biased < 0x8000
    ensures var e := Exponent(biased); var m := biased / Pow2(e + 3) % 16;
      Pow2(e + 3) * (16 + m) <= biased < Pow2(e + 3) * (17 + m)
  {
    PowersOfTwo();
  }

  /** The value a biased magnitude is reproduced as. */
  function Level(biased: nat): int
    requires BIAS <= biased < 0x8000
  {
    DecodedMagnitude(Exponent(biased), biased / Pow2(Exponent(biased) + 3) % 16)
  }

  lemma DecodesToLevel(s: Sample)
    ensures Decode(Encode(s)) == (if s < 0 then -Level(Magnitude(s) + BIAS) else Level(Magnitude(s) + BIAS))
  {
    EncodedFields(s);
  }

  /** The middle of an interval of width 2h is within h of all of it. */
  lemma MiddleIsNear(b: nat, h: nat, m: nat)
    requires 2 * h * (16 + m) <= b < 2 * h * (17 + m)
    ensures -(h as int) <= (2 * m + 33) * h - b <= h
  {
    assert (2 * m + 33) * h == 2 * h * (16 + m) + h == 2 * h * (17 + m) - h;
  }

  /** Every sample decodes to within half an interval of the clipped sample. */
  lemma QuantizationError(s: Sample)
    ensures -(Pow2(Segment(Encode(s)) + 2) as int) <= Decode(Encode(s)) - Clip(s)
    ensures Decode(Encode(s)) - Clip(s) <= Pow2(Segment(Encode(s)) + 2)
  {
    var b := Magnitude(s) + BIAS;
    var e := Exponent(b);
    EncodedFields(s);
    DecodesToLevel(s);
    InItsInterval(b);
    MiddleIsNear(b, Pow2(e + 2), b / Pow2(e + 3) % 16);
  }

  /** A level lies in the segment of the magnitudes it stands for. */
  lemma LevelInSegment(e: nat, m: nat)
    requires e < 8 && m < 16
    ensures Pow2(e + 7) <= DecodedMagnitude(e, m) + BIAS < Pow2(e + 8)
    ensures e == m == 0 <==> DecodedMagnitude(e, m) == 0
    ensures 0 <= DecodedMagnitude(e, m) <= 32124
  {
    PowersOfTwo();
    var p := Pow2(e + 2);
    assert Pow2(e + 7) == 32 * p && Pow2(e + 8) == 64 * p && 4 <= p <= 512;
    MulLe(33, 2 * m + 33, p);
    MulLe(2 * m + 33, 63, p);
  }

  lemma ExponentsAscend(a: nat, b: nat)
    requires BIAS <= a <= b < 0x8000
    ensures Exponent(a) <= Exponent(b)
    ensures Exponent(a) == Exponent(b) ==>
      a / Pow2(Exponent(a) + 3) % 16 <= b / Pow2(Exponent(a) + 3) % 16
    ensures Exponent(a) < Exponent(b) ==> Pow2(Exponent(a) + 8) <= Pow2(Exponent(b) + 7)
  {
    PowersOfTwo();
  }

  lemma LevelsAscend(a: nat, b: nat)
    requires BIAS <= a <= b < 0x8000
    ensures 0 <= Level(a) <= Level(b)
  {
    var e, f := Exponent(a), Exponent(b);
    var m, n := a / Pow2(e + 3) % 16, b / Pow2(f + 3) % 16;
    LevelInSegment(e, m);
    LevelInSegment(f, n);
    ExponentsAscend(a, b);
    if e == f {
      MulLe(2 * m + 33, 2 * n + 33, Pow2(e + 2));
    }
  }

  /** A louder sample never decodes to a quieter one. */
  lemma DecodingIsMonotone(s: Sample, t: Sample)
    requires s <= t
    ensures Decode(Encode(s)) <= Decode(Encode(t))
  {
    DecodesToLevel(s);
    DecodesToLevel(t);
    LevelsAscend(BIAS, Magnitude(s) + BIAS);
    LevelsAscend(BIAS, Magnitude(t) + BIAS);
    if t < 0 {
      LevelsAscend(Magnitude(t) + BIAS, Magnitude(s) + BIAS);
    } else if s >= 0 {
      LevelsAscend(Magnitude(s) + BIAS, Magnitude(t) + BIAS);
    }
  }

  lemma MiddleOfInterval(h: nat, m: nat)
    requires h > 0 && m < 16
    ensures (2 * m + 33) * h / (2 * h) == 16 + m
  {
    assert (2 * m + 33) * h == (16 + m) * (2 * h) + h;
    DivOfSum(16 + m, 2 * h, h);
  }

  lemma ExponentOf(biased: nat, e: nat)
    requires e < 8 && BIAS <= biased && Pow2(e + 7) <= biased < Pow2(e + 8)
    ensures biased < 0x8000 && Exponent(biased) == e
  {
    PowersOfTwo();
  }

  /** A level is encoded as itself. */
  lemma LevelEncodes(e: nat, m: nat)
    requires e < 8 && m < 16
    ensures var b := DecodedMagnitude(e, m) + BIAS;
      BIAS <= b < 0x8000 && Exponent(b) == e && b / Pow2(e + 3) % 16 == m
  {
    LevelInSegment(e, m);
    ExponentOf(DecodedMagnitude(e, m) + BIAS, e);
    MiddleOfInterval(Pow2(e + 2), m);
  }

  /** Encoding what a code word decodes to gives the code word back, for all but negative zero. */
  lemma EncodeAfterDecode(c: Byte)
    ensures -0x8000 <= Decode(c) < 0x8000
    ensures Encode(Decode(c)) == c <==> c != NEGATIVE_ZERO
  {
    var e, m := Segment(c), Interval(c);
    LevelInSegment(e, m);
    LevelEncodes(e, m);
    FieldsMakeTheByte(c);
    var s := Decode(c);
    assert Magnitude(s) == DecodedMagnitude(e, m);
    assert Encode(s) == EncodedByte(s < 0, e, m);
  }

  lemma FieldsMakeTheByte(c: Byte)
    ensures c == EncodedByte(SignBit(c) == 1, Segment(c), Interval(c))
    ensures c == NEGATIVE_ZERO <==> SignBit(c) == 1 && Segment(c) == Interval(c) == 0
  {
  }
}
