/** The path from synthesized PCM to queued PCMU frames (internal/app/bot/downlink_audio.go). */
module DownlinkCodec {
  import opened Arith
  import opened MuLaw
  import opened Outcome
  import opened Pcm

  const SAMPLE_RATE := 8000
  const FRAME_SAMPLES := 160
  const SECOND := 1_000_000_000  // nanoseconds

  datatype Queued = Queued(data: seq<Byte>, duration: nat)

  datatype Endian = Big | Little

  function EndianOf(name: string): Result<Endian> {
    if name in {"", "big", "be"} then Ok(Big)
    else if name in {"little", "le"} then Ok(Little)
    else Err("unsupported pcm endian")
  }

  function SampleAt(data: seq<Byte>, e: Endian, i: nat): Sample
    requires 2 * i + 1 < |data|
  {
    var first: int, second: int := data[2 * i], data[2 * i + 1];
    FromUint16(if e == Big then 0x100 * first + second else 0x100 * second + first)
  }

  function Samples(data: seq<Byte>, e: Endian): seq<Sample> {
    seq(|data| / 2, i requires 0 <= i < |data| / 2 => SampleAt(data, e, i))
  }

  /** Two bytes a sample, in two's complement, the low one first or last. */
  ghost predicate Reads(s: seq<Sample>, data: seq<Byte>, lowFirst: bool) {
    && |s| == |data| / 2
    && forall i | 0 <= i < |s| ::
         (s[i] as int - if lowFirst then Word(data[2 * i], data[2 * i + 1]) else Word(data[2 * i + 1], data[2 * i]))
         % 0x1_0000 == 0
  }

  function Word(low: int, high: int): int {
    low + 0x100 * high
  }

  lemma SamplesAreRead(data: seq<Byte>, e: Endian)
    ensures Reads(Samples(data, e), data, e == Little)
  {
  }

  /** There is only one way to read them. */
  lemma ReadingIsUnique(s: seq<Sample>, t: seq<Sample>, data: seq<Byte>, lowFirst: bool)
    requires Reads(s, data, lowFirst) && Reads(t, data, lowFirst)
    ensures s == t
  {
    forall i | 0 <= i < |s| ensures s[i] == t[i] {
      SameModulo(s[i], t[i],
                 if lowFirst then Word(data[2 * i], data[2 * i + 1]) else Word(data[2 * i + 1], data[2 * i]));
    }
  }

  lemma SameModulo(x: Sample, y: Sample, u: int)
    requires (x as int - u) % 0x1_0000 == 0 && (y as int - u) % 0x1_0000 == 0
    ensures x == y
  {
  }

  /** The samples of a byte buffer in the byte order of the configured name: "little" and "le" name the low
      byte first, "big", "be" and no name the low byte last; other names are an error. */
  method PcmBytesToInt16(data: seq<Byte>, pcmEndian: string) returns (r: Result<seq<Sample>>)
    ensures r == match EndianOf(pcmEndian) case Ok(e) => Ok(Samples(data, e)) case Err(m) => Err(m)
    ensures pcmEndian == "little" || pcmEndian == "le" ==> r.Ok? && Reads(r.value, data, true)
    ensures pcmEndian == "" || pcmEndian == "big" || pcmEndian == "be" ==> r.Ok? && Reads(r.value, data, false)
    ensures r.Ok? ==> pcmEndian in {"little", "le", "", "big", "be"}
  {
    var endian := EndianOf(pcmEndian);
    if endian.Err? {
      return Err(endian.message);
    }
    var samples := new Sample[|data| / 2];
    for i := 0 to samples.Length
      invariant samples[..i] == Samples(data, endian.value)[..i]
    {
      samples[i] := SampleAt(data, endian.value, i);
      assert samples[..i + 1] == samples[..i] + [samples[i]];
    }
    assert samples[..] == Samples(data, endian.value);
    SamplesAreRead(data, endian.value);
    return Ok(samples[..]);
  }

  /** The bytes sent to the recognizer, read back as little endian, are the samples. */
  lemma LittleEndianRoundTrip(s: seq<Sample>)
    ensures Samples(LittleEndian(s), Little) == s
  {
    forall i | 0 <= i < |s| ensures SampleAt(LittleEndian(s), Little, i) == s[i] {
      var bytes := LittleEndian(s);
      assert bytes[2 * i] == ToUint16(s[i]) % 0x100;
      assert bytes[2 * i + 1] == ToUint16(s[i]) / 0x100;
    }
  }

  /** Each pair of bytes the other way round. */
  function Swapped(data: seq<Byte>): seq<Byte>
    requires |data| % 2 == 0
  {
    seq(|data|, i requires 0 <= i < |data| => if i % 2 == 0 then data[i + 1] else data[i - 1])
  }

  /** The bytes of the samples, low byte first, are read back under the names for that, and with each pair
      swapped under the others. */
  lemma RoundTripByName(s: seq<Sample>, name: string)
    ensures name == "little" || name == "le" ==>
      EndianOf(name).Ok? && Samples(LittleEndian(s), EndianOf(name).value) == s
    ensures name == "" || name == "big" || name == "be" ==>
      EndianOf(name).Ok? && Samples(Swapped(LittleEndian(s)), EndianOf(name).value) == s
  {
    LittleEndianRoundTrip(s);
    SwappedReadsBig(LittleEndian(s));
  }

  lemma SwappedReadsBig(data: seq<Byte>)
    requires |data| % 2 == 0
    ensures Samples(Swapped(data), Big) == Samples(data, Little)
  {
    var swapped := Swapped(data);
    forall i | 0 <= i < |data| / 2 ensures SampleAt(swapped, Big, i) == SampleAt(data, Little, i) {
      assert swapped[2 * i] == data[2 * i + 1] && swapped[2 * i + 1] == data[2 * i];
    }
  }

  function Encoded(samples: seq<Sample>): seq<Byte> {
    seq(|samples|, i requires 0 <= i < |samples| => Encode(samples[i]))
  }

  method Pcm16ToMuLaw(samples: seq<Sample>) returns (out: seq<Byte>)
    ensures out == Encoded(samples)
  {
    var buffer := new Byte[|samples|];
    for i := 0 to |samples|
      invariant buffer[..i] == Encoded(samples)[..i]
    {
      buffer[i] := LinearToMuLaw(samples[i]);
      assert buffer[..i + 1] == buffer[..i] + [buffer[i]];
    }
    out := buffer[..];
  }

  /** `frames` cut `data` into full frames and a last one that is not empty. */
  ghost predicate Cuts(frames: seq<seq<Byte>>, data: seq<Byte>, size: int) {
    && Flatten(frames) == data
    && (forall i | 0 <= i < |frames| - 1 :: |frames[i]| == size)
    && (frames != [] ==> 0 < |frames[|frames| - 1]| <= size)
  }

  method SplitMuLawFrames(input: seq<Byte>, frameSize: int) returns (frames: seq<seq<Byte>>)
    ensures if frameSize <= 0 then frames == [] else Cuts(frames, input, frameSize)
  {
    frames := [];
    if |input| == 0 || frameSize <= 0 {
      return;
    }
    var data := input;
    while |data| > 0
      invariant Flatten(frames) + data == input
      invariant forall i | 0 <= i < |frames| :: 0 < |frames[i]| <= frameSize
      invariant forall i | 0 <= i < |frames| - 1 :: |frames[i]| == frameSize
      invariant frames != [] && |data| > 0 ==> |frames[|frames| - 1]| == frameSize
    {
      var size := frameSize;
      if |data| < size {
        size := |data|;
      }
      ghost var before := frames;
      frames := frames + [data[..size]];
      assert frames[..|frames| - 1] == before;
      assert data == data[..size] + data[size..];
      data := data[size..];
    }
  }

  /** There is one way to cut a buffer. */
  lemma {:induction false} CutIsUnique(f: seq<seq<Byte>>, g: seq<seq<Byte>>, data: seq<Byte>, size: nat)
    requires Cuts(f, data, size) && Cuts(g, data, size) && size > 0
    ensures f == g
  {
    CutLength(f, data, size);
    CutLength(g, data, size);
    if f != [] && g != [] {
      var n, m := |f| - 1, |g| - 1;
      CutSize(f, data, size);
      CutSize(g, data, size);
      if n < m {
        MulLe(n + 1, m, size);
      } else if m < n {
        MulLe(m + 1, n, size);
      }
      assert Flatten(f[..n]) == data[..n * size] == Flatten(g[..m]);
      CutPrefix(f, data, size);
      CutPrefix(g, data, size);
      CutIsUnique(f[..n], g[..m], data[..n * size], size);
      assert f == f[..n] + [f[n]] && g == g[..m] + [g[m]];
    }
  }

  lemma CutLength(f: seq<seq<Byte>>, data: seq<Byte>, size: nat)
    requires Cuts(f, data, size) && size > 0
    ensures f == [] <==> data == []
  {
  }

  lemma CutPrefix(f: seq<seq<Byte>>, data: seq<Byte>, size: nat)
    requires Cuts(f, data, size) && f != [] && size > 0
    ensures Cuts(f[..|f| - 1], Flatten(f[..|f| - 1]), size)
  {
  }

  lemma {:induction false} FlattenFull(f: seq<seq<Byte>>, size: nat)
    requires forall i | 0 <= i < |f| :: |f[i]| == size
    ensures |Flatten(f)| == |f| * size
  {
    if f != [] {
      FlattenFull(f[..|f| - 1], size);
      assert |f| * size == (|f| - 1) * size + size;
    }
  }

  lemma CutSize(f: seq<seq<Byte>>, data: seq<Byte>, size: nat)
    requires Cuts(f, data, size) && f != []
    ensures |Flatten(f[..|f| - 1])| == (|f| - 1) * size
    ensures (|f| - 1) * size < |data| <= |f| * size
    ensures data[..(|f| - 1) * size] == Flatten(f[..|f| - 1])
  {
    FlattenFull(f[..|f| - 1], size);
  }

  // The whole path.

  function TotalDuration(frames: seq<Queued>): nat {
    if frames == [] then 0 else TotalDuration(frames[..|frames| - 1]) + frames[|frames| - 1].duration
  }

  function Payloads(frames: seq<Queued>): seq<seq<Byte>> {
    seq(|frames|, i requires 0 <= i < |frames| => frames[i].data)
  }

  /** The frames that carry n samples at 16 kHz: one code word for every second sample, cut into full
      frames of 20 ms, with durations that add up to exactly the time the code words take. */
  ghost predicate Carries(frames: seq<Queued>, samples: seq<Sample>) {
    && Cuts(Payloads(frames), Encoded(Decimated(samples)), FRAME_SAMPLES)
    && TotalDuration(frames) * SAMPLE_RATE == |Decimated(samples)| * SECOND
    && forall i | 0 <= i < |frames| :: frames[i].duration * SAMPLE_RATE == |frames[i].data| * SECOND
  }

  /** Every second sample, beginning with the first. */
  function Decimated(samples: seq<Sample>): seq<Sample> {
    seq((|samples| + 1) / 2, i requires 0 <= i < (|samples| + 1) / 2 => samples[2 * i])
  }

  lemma HalvedRate(samples: seq<Sample>)
    ensures Normalized(Frame(16000, 1, samples), SAMPLE_RATE, 1) == Ok(Frame(SAMPLE_RATE, 1, Decimated(samples)))
  {
    var r := Resampled(samples, 16000, SAMPLE_RATE);
    ResampledLength(samples, 16000, SAMPLE_RATE);
    forall i | 0 <= i < |r| ensures r[i] == samples[2 * i] {
      ResampledAt(samples, i, 16000, SAMPLE_RATE);
    }
    assert r == Decimated(samples);
  }

  /** WritePCM16K up to the enqueueing: the frames it enqueues, or its error. */
  method FramesOfPCM16K(data: seq<Byte>, pcmEndian: string) returns (r: Result<seq<Queued>>)
    ensures data == [] ==> r == Ok([])
    ensures data != [] ==> (r.Ok? <==> |data| % 2 == 0 && EndianOf(pcmEndian).Ok?)
    ensures data != [] && r.Ok? ==> Carries(r.value, Samples(data, EndianOf(pcmEndian).value))
    ensures data != [] && |data| % 2 == 0 && (pcmEndian == "little" || pcmEndian == "le") ==>
      r.Ok? && exists s :: Reads(s, data, true) && Carries(r.value, s)
    ensures data != [] && |data| % 2 == 0 && (pcmEndian == "" || pcmEndian == "big" || pcmEndian == "be") ==>
      r.Ok? && exists s :: Reads(s, data, false) && Carries(r.value, s)
  {
    if |data| == 0 {
      return Ok([]);
    }
    if |data| % 2 != 0 {
      return Err("pcm payload must be 16-bit aligned");
    }
    var samples := PcmBytesToInt16(data, pcmEndian);
    if samples.Err? {
      return Err(samples.message);
    }
    var frame := NormalizePCMFrame(Frame(16000, 1, samples.value), SAMPLE_RATE, 1);
    HalvedRate(samples.value);  // with these arguments it cannot fail
    var mulaw := Pcm16ToMuLaw(frame.value.samples);
    var frames := SplitMuLawFrames(mulaw, FRAME_SAMPLES);
    var queue: seq<Queued> := [];
    for i := 0 to |frames|
      invariant Payloads(queue) == frames[..i]
      invariant TotalDuration(queue) * SAMPLE_RATE == |Flatten(frames[..i])| * SECOND
      invariant forall k | 0 <= k < |queue| :: queue[k].duration * SAMPLE_RATE == |queue[k].data| * SECOND
    {
      ghost var before := queue;
      queue := queue + [Queued(frames[i], |frames[i]| * SECOND / SAMPLE_RATE)];
      assert queue[..|queue| - 1] == before;
      assert frames[..i + 1][..i] == frames[..i];
      assert |frames[i]| * SECOND / SAMPLE_RATE * SAMPLE_RATE == |frames[i]| * SECOND;
    }
    assert frames[..|frames|] == frames;
    return Ok(queue);
  }

  /** What the far end hears: byte j of the frames decodes to within half a step of clipped input
      sample 2j, and there are ceil(n/2) bytes. */
  lemma FarEndHears(frames: seq<Queued>, samples: seq<Sample>, j: nat)
    requires Carries(frames, samples) && j < |Flatten(Payloads(frames))|
    ensures |Flatten(Payloads(frames))| == (|samples| + 1) / 2
    ensures var code := Flatten(Payloads(frames))[j];
      Clip(samples[2 * j]) - Pow2(Segment(code) + 2) <= Decode(code) <= Clip(samples[2 * j]) + Pow2(Segment(code) + 2)
  {
    QuantizationError(samples[2 * j]);
  }
}
