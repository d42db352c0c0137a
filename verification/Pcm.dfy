/** PCM normalisation (internal/audio/pcm.go): downmix, nearest-sample resampling, byte encoding. */
module Pcm {
  import opened Arith
  import opened MuLaw
  import opened Outcome

  datatype Frame = Frame(rate: nat, channels: nat, samples: seq<Sample>)

  /** Go's integer division by a positive number: toward zero. */
  function Truncated(x: int, d: nat): int
    requires d > 0
  {
    if x >= 0 then x / d else -((-x) / d)
  }

  lemma TruncatedBounds(x: int, d: nat, lo: int, hi: int)
    requires d > 0 && lo * d <= x <= hi * d && lo <= 0 <= hi
    ensures lo <= Truncated(x, d) <= hi
    ensures x >= 0 ==> 0 <= x - Truncated(x, d) * d < d
    ensures x < 0 ==> -(d as int) < x - Truncated(x, d) * d <= 0
  {
    if x >= 0 {
      DivAtMost(x, d, hi);
      DivMod(x, d);
    } else {
      NegTimes(lo, d);
      DivAtMost(-x, d, -lo);
      DivMod(-x, d);
      NegTimes((-x) / d, d);
    }
  }

  lemma NegTimes(x: int, d: nat)
    ensures (-x) * d == -(x * d)
  {
  }

  // Downmix.

  function Sum(s: seq<Sample>): int {
    if s == [] then 0 else Sum(s[..|s| - 1]) + s[|s| - 1]
  }

  lemma {:induction false} SumBounds(s: seq<Sample>)
    ensures -0x8000 * |s| <= Sum(s) <= 0x7FFF * |s|
  {
    if s != [] {
      SumBounds(s[..|s| - 1]);
    }
  }

  /** With Sum([]) == 0 and Sum([x]) == x this says all there is to say of a sum. */
  lemma {:induction false} SumsAddUp(a: seq<Sample>, b: seq<Sample>)
    ensures Sum(a + b) == Sum(a) + Sum(b)
  {
    if b == [] {
      assert a + b == a;
    } else {
      SumsAddUp(a, b[..|b| - 1]);
      assert (a + b)[..|a + b| - 1] == a + b[..|b| - 1];
    }
  }

  function Mean(s: seq<Sample>): (m: Sample)
    requires s != []
  {
    SumBounds(s);
    TruncatedBounds(Sum(s), |s|, -0x8000, 0x7FFF);
    Truncated(Sum(s), |s|)
  }

  /** Sample i of the mono signal is the truncated mean of the i-th samples of all channels; a buffer
      that does not hold whole groups is passed on unchanged. */
  function Downmixed(s: seq<Sample>, channels: nat): seq<Sample> {
    if channels <= 1 || |s| % channels != 0 then s
    else
      seq(|s| / channels, i requires 0 <= i < |s| / channels =>
        GroupInRange(i, |s|, channels); Mean(s[i * channels..i * channels + channels]))
  }

  lemma GroupInRange(i: nat, n: nat, channels: nat)
    requires channels > 0 && n % channels == 0 && i < n / channels
    ensures i * channels + channels <= n
  {
    DivMod(n, channels);
    MulLe(i + 1, n / channels, channels);
  }

  /** The mean is rounded toward zero by less than one. */
  lemma MeanIsNear(s: seq<Sample>)
    requires s != []
    ensures Sum(s) >= 0 ==> 0 <= Sum(s) - Mean(s) * |s| < |s|
    ensures Sum(s) < 0 ==> 0 <= Mean(s) * |s| - Sum(s) < |s|
  {
    SumBounds(s);
    TruncatedBounds(Sum(s), |s|, -0x8000, 0x7FFF);
  }

  lemma GroupMean(s: seq<Sample>, channels: nat, i: nat, sum: int)
    requires channels > 1 && |s| % channels == 0 && i < |s| / channels
    requires i * channels + channels <= |s| && sum == Sum(s[i * channels..i * channels + channels])
    ensures |Downmixed(s, channels)| == |s| / channels
    ensures Downmixed(s, channels)[i] == (if sum >= 0 then sum / channels else -((-sum) / channels))
  {
    var group := s[i * channels..i * channels + channels];
    assert |group| == channels;
    assert Downmixed(s, channels)[i] == Mean(group);
  }

  /** Of left and right comes their mean, rounded toward zero if it is not whole. */
  lemma StereoMean(s: seq<Sample>, i: nat)
    requires |s| % 2 == 0 && 2 * i < |s|
    ensures |Downmixed(s, 2)| == |s| / 2
    ensures var both, m: int := s[2 * i] as int + s[2 * i + 1] as int, Downmixed(s, 2)[i];
      2 * m == both || (both > 0 && 2 * m == both - 1) || (both < 0 && 2 * m == both + 1)
  {
    var pair := s[i * 2..i * 2 + 2];
    assert pair == [s[2 * i]] + [s[2 * i + 1]];
    SumsAddUp([s[2 * i]], [s[2 * i + 1]]);
    assert Sum([s[2 * i]]) == s[2 * i] && Sum([s[2 * i + 1]]) == s[2 * i + 1];
    GroupMean(s, 2, i, Sum(pair));
  }

  method DownmixToMono(samples: seq<Sample>, channels: nat) returns (out: seq<Sample>)
    ensures out == Downmixed(samples, channels)
  {
    if channels <= 1 {
      return samples;
    }
    if |samples| % channels != 0 {
      return samples;
    }
    var frameCount := |samples| / channels;
    ghost var mono := Downmixed(samples, channels);
    var buffer := new Sample[frameCount];
    for i := 0 to frameCount
      invariant forall k | 0 <= k < i :: buffer[k] == mono[k]
    {
      GroupInRange(i, |samples|, channels);
      var sum := SumGroup(samples, i * channels, channels);
      GroupMean(samples, channels, i, sum);
      buffer[i] := if sum >= 0 then sum / channels else -((-sum) / channels);
    }
    assert buffer[..] == mono;
    out := buffer[..];
  }

  /** The inner loop of downmixToMono. */
  method SumGroup(samples: seq<Sample>, base: nat, channels: nat) returns (sum: int)
    requires base + channels <= |samples|
    ensures sum == Sum(samples[base..base + channels])
  {
    sum := 0;
    for ch := 0 to channels
      invariant sum == Sum(samples[base..base + ch])
    {
      assert samples[base..base + ch + 1][..ch] == samples[base..base + ch];
      sum := sum + samples[base + ch];
    }
  }

  // Resampling.

  /** Samples that n samples at rate `src` become at rate `dst`. */
  function OutLen(n: nat, src: nat, dst: nat): nat
    requires src > 0
  {
    CeilDiv(n * dst, src);
    (n * dst + src - 1) / src
  }

  function SourceIndex(i: nat, src: nat, dst: nat): nat
    requires dst > 0
  {
    DivNat(i * src, dst);
    i * src / dst
  }

  function Resampled(s: seq<Sample>, src: nat, dst: nat): seq<Sample> {
    if src == 0 || dst == 0 || s == [] then []
    else if src == dst then s
    else
      seq(OutLen(|s|, src, dst), i requires 0 <= i =>
        var at := SourceIndex(i, src, dst); s[if at >= |s| then |s| - 1 else at])
  }

  method ResampleMono(samples: seq<Sample>, src: nat, dst: nat) returns (out: seq<Sample>)
    ensures out == Resampled(samples, src, dst)
  {
    if src == 0 || dst == 0 || |samples| == 0 {
      return [];
    }
    if src == dst {
      return samples;
    }
    var outLen := (|samples| * dst + src - 1) / src;
    if outLen <= 0 {
      CeilDiv(|samples| * dst, src);
      return [];
    }
    var buffer := new Sample[outLen];
    for i := 0 to outLen
      invariant buffer[..i] == Resampled(samples, src, dst)[..i]
    {
      var sourceIndex := i * src / dst;
      DivNat(i * src, dst);
      if sourceIndex >= |samples| {
        sourceIndex := |samples| - 1;
      }
      buffer[i] := samples[sourceIndex];
      assert buffer[..i + 1] == buffer[..i] + [buffer[i]];
    }
    out := buffer[..];
  }

  /** The index map stays inside the input, so the clamp never acts, and it never goes back. */
  lemma SourceIndexInRange(n: nat, i: nat, src: nat, dst: nat)
    requires n > 0 && src > 0 && dst > 0 && i < OutLen(n, src, dst)
    ensures SourceIndex(i, src, dst) < n
  {
    CeilDiv(n * dst, src);
    MulLe(i, OutLen(n, src, dst) - 1, src);
    DivMod(i * src, dst);
    if SourceIndex(i, src, dst) >= n {
      MulLe(n, SourceIndex(i, src, dst), dst);
    }
  }

  lemma SourceIndexAscends(i: nat, j: nat, src: nat, dst: nat)
    requires i <= j && dst > 0
    ensures SourceIndex(i, src, dst) <= SourceIndex(j, src, dst)
  {
    MulLe(i, j, src);
    DivLe(i * src, j * src, dst);
  }

  lemma SourceIndexSameRate(i: nat, rate: nat)
    requires rate > 0
    ensures SourceIndex(i, rate, rate) == i
  {
    DivUnique(i * rate, rate, i);
  }

  lemma OutLenSameRate(n: nat, rate: nat)
    requires rate > 0
    ensures OutLen(n, rate, rate) == n
  {
    DivUnique(n * rate + rate - 1, rate, n);
  }

  lemma SameRateAt(s: seq<Sample>, i: nat, rate: nat)
    requires rate > 0 && i < OutLen(|s|, rate, rate)
    ensures |Resampled(s, rate, rate)| == OutLen(|s|, rate, rate)
    ensures SourceIndex(i, rate, rate) < |s| && Resampled(s, rate, rate)[i] == s[SourceIndex(i, rate, rate)]
  {
    OutLenSameRate(|s|, rate);
    SourceIndexSameRate(i, rate);
  }

  lemma OtherRateAt(s: seq<Sample>, i: nat, src: nat, dst: nat)
    requires src > 0 && dst > 0 && src != dst && s != [] && i < OutLen(|s|, src, dst)
    ensures |Resampled(s, src, dst)| == OutLen(|s|, src, dst)
    ensures SourceIndex(i, src, dst) < |s| && Resampled(s, src, dst)[i] == s[SourceIndex(i, src, dst)]
  {
    SourceIndexInRange(|s|, i, src, dst);
  }

  lemma NothingFromNothing(src: nat, dst: nat)
    requires src > 0
    ensures OutLen(0, src, dst) == 0
  {
    DivUnique(src - 1, src, 0);
  }

  /** The nearest earlier input sample. */
  lemma ResampledAt(s: seq<Sample>, i: nat, src: nat, dst: nat)
    requires src > 0 && dst > 0 && i < OutLen(|s|, src, dst)
    ensures |Resampled(s, src, dst)| == OutLen(|s|, src, dst)
    ensures var at := SourceIndex(i, src, dst);
      at < |s| && Resampled(s, src, dst)[i] == s[at] && at * dst <= i * src < (at + 1) * dst
  {
    NothingFromNothing(src, dst);
    if src == dst {
      SameRateAt(s, i, src);
    } else {
      OtherRateAt(s, i, src, dst);
    }
    DivMod(i * src, dst);
  }

  /** What resampling means, for all lengths and positive rates: n samples become the least number
      that covers their duration, and so less than one output sample too many. */
  lemma ResampledLength(s: seq<Sample>, src: nat, dst: nat)
    requires src > 0 && dst > 0
    ensures |Resampled(s, src, dst)| == OutLen(|s|, src, dst)
    ensures 0 <= |Resampled(s, src, dst)| * src - |s| * dst < src
  {
    CeilDiv(|s| * dst, src);
    OutLenSameRate(|s|, src);
  }

  // Cutting the input.

  /** A prefix of n samples that becomes a whole number of output samples. */
  predicate Aligned(n: nat, src: nat, dst: nat) {
    src > 0 ==> n * dst % src == 0
  }

  lemma AlignedLength(a: nat, b: nat, src: nat, dst: nat)
    requires src > 0 && Aligned(a, src, dst)
    ensures OutLen(a, src, dst) * src == a * dst
    ensures OutLen(a + b, src, dst) == OutLen(a, src, dst) + OutLen(b, src, dst)
  {
    var q := a * dst / src;
    DivMod(a * dst, src);
    DivOfSum(q, src, src - 1);
    DivUnique(src - 1, src, 0);
    assert OutLen(a, src, dst) == q;
    assert (a + b) * dst == a * dst + b * dst;
    DivOfSum(q, src, b * dst + src - 1);
  }

  lemma AlignedIndex(a: nat, q: nat, src: nat, dst: nat, i: nat)
    requires dst > 0 && q * src == a * dst
    ensures SourceIndex(q + i, src, dst) == a + SourceIndex(i, src, dst)
  {
    assert (q + i) * src == a * dst + i * src;
    DivOfSum(a, dst, i * src);
  }

  /** Cutting the input behind an aligned prefix does not change the output. */
  lemma ResampledConcat(a: seq<Sample>, b: seq<Sample>, src: nat, dst: nat)
    requires Aligned(|a|, src, dst)
    ensures Resampled(a + b, src, dst) == Resampled(a, src, dst) + Resampled(b, src, dst)
  {
    if src > 0 && dst > 0 && src != dst {
      var ra, rb := Resampled(a, src, dst), Resampled(b, src, dst);
      LengthsAddUp(a, b, src, dst);
      forall i | 0 <= i < |ra| ensures Resampled(a + b, src, dst)[i] == ra[i] {
        ResampledBefore(a, b, src, dst, i);
      }
      forall i | 0 <= i < |rb| ensures Resampled(a + b, src, dst)[|ra| + i] == rb[i] {
        ResampledBehind(a, b, src, dst, i);
      }
      SameAsConcat(Resampled(a + b, src, dst), ra, rb);
    }
  }

  lemma SameAsConcat<T>(s: seq<T>, a: seq<T>, b: seq<T>)
    requires |s| == |a| + |b|
    requires (forall i | 0 <= i < |a| :: s[i] == a[i]) && (forall i | 0 <= i < |b| :: s[|a| + i] == b[i])
    ensures s == a + b
  {
  }

  lemma LengthsAddUp(a: seq<Sample>, b: seq<Sample>, src: nat, dst: nat)
    requires src > 0 && dst > 0 && Aligned(|a|, src, dst)
    ensures |Resampled(a + b, src, dst)| == |Resampled(a, src, dst)| + |Resampled(b, src, dst)|
  {
    AlignedLength(|a|, |b|, src, dst);
    ResampledLength(a, src, dst);
    ResampledLength(b, src, dst);
    ResampledLength(a + b, src, dst);
  }

  lemma ResampledBefore(a: seq<Sample>, b: seq<Sample>, src: nat, dst: nat, i: nat)
    requires src > 0 && dst > 0 && i < |Resampled(a, src, dst)| && i < |Resampled(a + b, src, dst)|
    ensures Resampled(a + b, src, dst)[i] == Resampled(a, src, dst)[i]
  {
    ResampledLength(a, src, dst);
    ResampledLength(a + b, src, dst);
    ResampledAt(a + b, i, src, dst);
    ResampledAt(a, i, src, dst);
  }

  lemma ResampledBehind(a: seq<Sample>, b: seq<Sample>, src: nat, dst: nat, i: nat)
    requires src > 0 && dst > 0 && Aligned(|a|, src, dst) && i < |Resampled(b, src, dst)|
    ensures |Resampled(a, src, dst)| + i < |Resampled(a + b, src, dst)|
    ensures Resampled(a + b, src, dst)[|Resampled(a, src, dst)| + i] == Resampled(b, src, dst)[i]
  {
    var q := OutLen(|a|, src, dst);
    AlignedLength(|a|, |b|, src, dst);
    AlignedIndex(|a|, q, src, dst, i);
    ResampledLength(a, src, dst);
    ResampledLength(b, src, dst);
    MovedSample(a, b, src, dst, q, i);
  }

  lemma MovedSample(a: seq<Sample>, b: seq<Sample>, src: nat, dst: nat, q: nat, i: nat)
    requires src > 0 && dst > 0 && i < OutLen(|b|, src, dst) && q + i < OutLen(|a + b|, src, dst)
    requires SourceIndex(q + i, src, dst) == |a| + SourceIndex(i, src, dst)
    ensures i < |Resampled(b, src, dst)| && q + i < |Resampled(a + b, src, dst)|
    ensures Resampled(a + b, src, dst)[q + i] == Resampled(b, src, dst)[i]
  {
    ResampledAt(a + b, q + i, src, dst);
    ResampledAt(b, i, src, dst);
  }

  function Flatten<T>(parts: seq<seq<T>>): seq<T> {
    if parts == [] then [] else Flatten(parts[..|parts| - 1]) + parts[|parts| - 1]
  }

  function ResampledParts(parts: seq<seq<Sample>>, src: nat, dst: nat): seq<seq<Sample>> {
    seq(|parts|, i requires 0 <= i < |parts| => Resampled(parts[i], src, dst))
  }

  lemma {:induction false} FlattenAligned(parts: seq<seq<Sample>>, src: nat, dst: nat)
    requires forall i | 0 <= i < |parts| :: Aligned(|parts[i]|, src, dst)
    ensures Aligned(|Flatten(parts)|, src, dst)
  {
    if parts != [] && src > 0 {
      var before, last := parts[..|parts| - 1], parts[|parts| - 1];
      FlattenAligned(before, src, dst);
      var x, y := |Flatten(before)| * dst, |last| * dst;
      assert |Flatten(parts)| * dst == x + y;
      DivMod(x, src);
      DivMod(y, src);
      var q := x / src + y / src;
      assert x + y == q * src;
      DivUnique(x + y, src, q);
      DivMod(x + y, src);
    }
  }

  /** A stream cut into frames of which all but the last are aligned is resampled as one. */
  lemma {:induction false} ResampledStream(parts: seq<seq<Sample>>, src: nat, dst: nat)
    requires forall i | 0 <= i < |parts| - 1 :: Aligned(|parts[i]|, src, dst)
    ensures Flatten(ResampledParts(parts, src, dst)) == Resampled(Flatten(parts), src, dst)
  {
    if parts != [] {
      var before, last := parts[..|parts| - 1], parts[|parts| - 1];
      ResampledStream(before, src, dst);
      FlattenAligned(before, src, dst);
      ResampledConcat(Flatten(before), last, src, dst);
      assert ResampledParts(parts, src, dst)[..|before|] == ResampledParts(before, src, dst);
    }
  }

  // Normalisation.

  function Normalized(f: Frame, targetRate: nat, targetChannels: nat): Result<Frame> {
    if f.rate == 0 then Err("invalid sample rate")
    else if f.channels == 0 then Err("invalid channel count")
    else if targetChannels != 1 then Err("unsupported target channel count")
    else Ok(Frame(targetRate, 1, Resampled(Downmixed(f.samples, f.channels), f.rate, targetRate)))
  }

  method NormalizePCMFrame(frame: Frame, targetRate: nat, targetChannels: nat) returns (r: Result<Frame>)
    ensures r == Normalized(frame, targetRate, targetChannels)
    ensures r.Ok? <==> frame.rate >= 1 && frame.channels >= 1 && targetChannels == 1
    ensures r.Ok? ==> r.value.rate == targetRate && r.value.channels == 1
  {
    if frame.rate == 0 {
      return Err("invalid sample rate");
    }
    if frame.channels == 0 {
      return Err("invalid channel count");
    }
    if targetChannels != 1 {
      return Err("unsupported target channel count");
    }
    var normalized := frame;
    if normalized.channels > 1 {
      var mono := DownmixToMono(normalized.samples, normalized.channels);
      normalized := normalized.(samples := mono, channels := 1);
    }
    if normalized.rate != targetRate {
      var resampled := ResampleMono(normalized.samples, normalized.rate, targetRate);
      normalized := normalized.(samples := resampled, rate := targetRate);
    }
    return Ok(normalized);
  }

  // Bytes.

  /** binary.LittleEndian and binary.BigEndian on 16 bits, with Go's conversions between int16 and
      uint16 written out. */
  function ToUint16(s: Sample): nat {
    if s < 0 then s + 0x1_0000 else s
  }

  function FromUint16(u: nat): Sample
    requires u < 0x1_0000
  {
    if u >= 0x8000 then u - 0x1_0000 else u
  }

  function LittleEndian(s: seq<Sample>): seq<Byte> {
    seq(2 * |s|, i requires 0 <= i < 2 * |s| =>
      if i % 2 == 0 then ToUint16(s[i / 2]) % 0x100 else ToUint16(s[i / 2]) / 0x100)
  }

  method PCMToS16LE(samples: seq<Sample>) returns (out: seq<Byte>)
    ensures out == LittleEndian(samples)
  {
    var buffer := new Byte[|samples| * 2];
    for i := 0 to |samples|
      invariant buffer[..2 * i] == LittleEndian(samples)[..2 * i]
    {
      var u := ToUint16(samples[i]);
      buffer[2 * i] := u % 0x100;
      buffer[2 * i + 1] := u / 0x100;
      assert buffer[..2 * i + 2] == buffer[..2 * i] + [buffer[2 * i], buffer[2 * i + 1]];
    }
    out := buffer[..];
  }
}
