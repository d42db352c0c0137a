/** The recognizer's input channels (asrRuntime of internal/app/bot/asr_runtime.go): speech starts,
    frames, ends of utterance, closes and the goroutines that forward a recognizer's events, in any
    interleaving. Sending on a closed channel and closing one twice would panic; both are recorded. */
module AsrInput {
  import opened Arith
  import opened Counting
  import opened Outcome
  import Runs

  const SECOND := 1_000_000_000

  /** One chunk of audio; `samples` is the length of its PCM in samples. */
  datatype Chunk = Chunk(sequence: nat, timestamp: nat, samples: nat)

  /** The fields behind the mutex. A channel is known by the number of the start that made it. */
  datatype Fields = Fields(
    input: Option<nat>, turn: nat, sequence: nat, sentSamples: nat, chunkCount: nat, byteCount: nat)

  const NO_INPUT := Fields(None, 0, 0, 0, 0, 0)

  function Started(f: Fields, channel: nat, turn: nat): Fields {
    if f.input.Some? then f else Fields(Some(channel), turn, 0, 0, 0, 0)
  }

  function Timestamp(sentSamples: nat, rate: nat): nat
    requires rate > 0
  {
    sentSamples * SECOND / rate
  }

  /** A chunk is stamped with the nanoseconds that the samples before it last, rounded down. */
  lemma TimestampIsFloor(sentSamples: nat, rate: nat)
    requires rate > 0
    ensures var t := Timestamp(sentSamples, rate); t * rate <= sentSamples * 1_000_000_000 < (t + 1) * rate
  {
    DivMod(sentSamples * SECOND, rate);
  }

  function NextChunk(f: Fields, samples: nat, rate: nat): Chunk
    requires rate > 0
  {
    Chunk(f.sequence, Timestamp(f.sentSamples, rate), samples)
  }

  function Sent(f: Fields, samples: nat): Fields {
    f.(sequence := f.sequence + 1, sentSamples := f.sentSamples + samples,
       chunkCount := f.chunkCount + 1, byteCount := f.byteCount + 2 * samples)
  }

  function Forgotten(f: Fields, channel: nat): Fields {
    if f.input == Some(channel) then NO_INPUT else f
  }

  /** The critical sections, on the fields as the source keeps them. */
  class AsrRuntime {
    const targetSampleRate: nat
    var input: Option<nat>
    var currentTurn: nat
    var sequence: nat
    var sentSamples: nat
    var chunkCount: nat
    var byteCount: nat

    function Abs(): Fields
      reads this
    {
      Fields(input, currentTurn, sequence, sentSamples, chunkCount, byteCount)
    }

    constructor (rate: nat)
      ensures targetSampleRate == rate && Abs() == NO_INPUT
    {
      targetSampleRate := rate;
      input, currentTurn, sequence, sentSamples, chunkCount, byteCount := None, 0, 0, 0, 0, 0;
    }

    /** HandleSpeechStart: `channel` is the one to use if the recognizer could be started. */
    method SpeechStart(turn: nat, channel: nat, providerStarts: bool) returns (made: bool)
      modifies this
      ensures made <==> turn != 0 && old(input).None? && providerStarts
      ensures Abs() == if made then Started(old(Abs()), channel, turn) else old(Abs())
    {
      if turn == 0 {
        return false;
      }
      if input.Some? {
        return false;
      }
      if !providerStarts {
        return false;
      }
      input, currentTurn := Some(channel), turn;
      sequence, sentSamples, chunkCount, byteCount := 0, 0, 0, 0;
      return true;
    }

    /** The critical section of HandleEndOfUtterance and of Close: what is returned is closed later. */
    method TakeInput() returns (taken: Option<nat>)
      modifies this
      ensures taken == old(input) && Abs() == NO_INPUT
    {
      taken := input;
      input, currentTurn, sequence, sentSamples, chunkCount, byteCount := None, 0, 0, 0, 0, 0;
    }

    /** consumeFrame: the chunk is offered to the input; `accepted` tells whether it was taken in time. */
    method ConsumeFrame(samples: nat, accepted: bool) returns (chunk: Option<Chunk>)
      requires targetSampleRate > 0
      modifies this
      ensures chunk == if old(input).Some? && accepted then Some(NextChunk(old(Abs()), samples, targetSampleRate))
                       else None
      ensures Abs() == if chunk.Some? then Sent(old(Abs()), samples) else old(Abs())
    {
      if input.None? {
        return None;
      }
      var offered := Chunk(sequence, sentSamples * SECOND / targetSampleRate, samples);
      if accepted {
        chunk := Some(offered);
        sequence := sequence + 1;
        sentSamples := sentSamples + samples;
        chunkCount := chunkCount + 1;
        byteCount := byteCount + 2 * samples;
      } else {
        chunk := None;
      }
    }

    /** The last critical section of forwardEvents. */
    method Forget(channel: nat)
      modifies this
      ensures Abs() == Forgotten(old(Abs()), channel)
    {
      if input == Some(channel) {
        input, currentTurn, sequence, sentSamples, chunkCount, byteCount := None, 0, 0, 0, 0, 0;
      }
    }
  }

  // All goroutines.

  datatype Channel = Channel(closed: bool, sent: seq<Chunk>)

  datatype Pc =
    | Gone
    | Holding(channel: nat)                          // took the input; before close(input)
    | Forwarding(own: nat)                           // forwardEvents of one recognizer stream
    | ForwardHolding(own: nat, channel: nat)         // the same, in HandleEndOfUtterance

  datatype Sys = Sys(fields: Fields, channels: seq<Channel>, threads: seq<Pc>, panicked: bool)

  ghost predicate Init(s: Sys) {
    s == Sys(NO_INPUT, [], [], false)
  }

  ghost predicate StartStep(s: Sys, s': Sys) {
    exists turn: nat | turn != 0 :: s.fields.input.None? &&
      s' == s.(fields := Started(s.fields, |s.channels|, turn), channels := s.channels + [Channel(false, [])],
               threads := s.threads + [Forwarding(|s.channels|)])
  }

  ghost predicate FrameStep(s: Sys, rate: nat, s': Sys)
    requires rate > 0
  {
    || s' == s  // there is no input, or the chunk was dropped
    || (s.fields.input.Some? && exists samples: nat ::
          s' == Delivered(s, s.fields.input.value, NextChunk(s.fields, samples, rate))
                .(fields := Sent(s.fields, samples)))
  }

  function Delivered(s: Sys, c: nat, chunk: Chunk): Sys {
    if c >= |s.channels| || s.channels[c].closed then s.(panicked := true)
    else s.(channels := s.channels[c := s.channels[c].(sent := s.channels[c].sent + [chunk])])
  }

  function Closed(s: Sys, c: nat): Sys {
    if c >= |s.channels| || s.channels[c].closed then s.(panicked := true)
    else s.(channels := s.channels[c := s.channels[c].(closed := true)])
  }

  /** A send on a closed channel and a second close are what panics, and nothing else does. */
  lemma MisusePanics(s: Sys, c: nat, chunk: Chunk)
    requires c < |s.channels|
    ensures Delivered(s, c, chunk).panicked <==> s.panicked || s.channels[c].closed
    ensures Closed(s, c).panicked <==> s.panicked || s.channels[c].closed
  {
  }

  /** HandleEndOfUtterance or Close, called by the endpointer, the frame consumer or the session. */
  ghost predicate TakeStep(s: Sys, s': Sys) {
    s' == s.(fields := NO_INPUT,
             threads := s.threads + if s.fields.input.Some? then [Holding(s.fields.input.value)] else [])
  }

  ghost predicate ThreadStep(s: Sys, i: nat, s': Sys)
    requires i < |s.threads|
  {
    match s.threads[i]
    case Gone => false
    case Holding(c) => s' == Closed(s, c).(threads := s.threads[i := Gone])
    case ForwardHolding(own, c) => s' == Closed(s, c).(threads := s.threads[i := Forwarding(own)])
    case Forwarding(own) =>
      || s' == s.(fields := Forgotten(s.fields, own), threads := s.threads[i := Gone])
      || s' == s.(fields := NO_INPUT, threads := s.threads[i :=
           if s.fields.input.Some? then ForwardHolding(own, s.fields.input.value) else Forwarding(own)])
  }

  ghost predicate Next(s: Sys, rate: nat, s': Sys)
    requires rate > 0
  {
    || StartStep(s, s') || FrameStep(s, rate, s') || TakeStep(s, s')
    || exists i: nat | i < |s.threads| :: ThreadStep(s, i, s')
  }

  ghost function Steps(rate: nat): (Sys, Sys) -> bool
    requires rate > 0
  {
    (s, s') => Next(s, rate, s')
  }

  ghost predicate IsRun(run: seq<Sys>, rate: nat)
    requires rate > 0
  {
    Runs.IsRun(run, Init, Steps(rate))
  }

  /** A frame may be dropped, which changes nothing, and is if there is no input. */
  lemma FrameMayBeDropped(s: Sys, rate: nat, s': Sys)
    requires rate > 0
    ensures FrameStep(s, rate, s)
    ensures s.fields.input.None? && FrameStep(s, rate, s') ==> s' == s
  {
  }

  // What every interleaving keeps.

  function SamplesOf(chunk: Chunk): nat {
    chunk.samples
  }

  function SampleCount(sent: seq<Chunk>): nat {
    Total(sent, SamplesOf)
  }

  /** Chunks are numbered 0, 1, 2, ... and stamped with the exact time of the samples before them. */
  ghost predicate InOrder(sent: seq<Chunk>, rate: nat)
    requires rate > 0
  {
    forall i | 0 <= i < |sent| :: sent[i].sequence == i && sent[i].timestamp == Timestamp(SampleCount(sent[..i]), rate)
  }

  function Held(pc: Pc): Option<nat> {
    match pc
    case Holding(c) => Some(c)
    case ForwardHolding(_, c) => Some(c)
    case _ => None
  }

  /** An open channel has at most one owner: the fields, or one goroutine that is about to close it. */
  ghost predicate Owned(s: Sys) {
    && (s.fields.input.Some? ==> IsOpen(s, s.fields.input.value))
    && (forall i | 0 <= i < |s.threads| && Held(s.threads[i]).Some? ::
          IsOpen(s, Held(s.threads[i]).value) && Held(s.threads[i]) != s.fields.input)
    && (forall i, j | 0 <= i < j < |s.threads| && Held(s.threads[i]).Some? :: Held(s.threads[i]) != Held(s.threads[j]))
  }

  predicate IsOpen(s: Sys, c: nat) {
    c < |s.channels| && !s.channels[c].closed
  }

  /** The counters describe what has been sent. */
  predicate Describes(f: Fields, sent: seq<Chunk>) {
    && f.sequence == f.chunkCount == |sent|
    && f.sentSamples == SampleCount(sent)
    && f.byteCount == 2 * SampleCount(sent)
  }

  /** The counters belong to the channel that is the input. */
  ghost predicate Counted(s: Sys) {
    match s.fields.input
    case None => s.fields == NO_INPUT
    case Some(c) => c < |s.channels| && Describes(s.fields, s.channels[c].sent)
  }

  ghost predicate Inv(s: Sys, rate: nat)
    requires rate > 0
  {
    && !s.panicked && Owned(s) && Counted(s)
    && forall c | 0 <= c < |s.channels| :: InOrder(s.channels[c].sent, rate)
  }

  lemma ChunkInOrder(sent: seq<Chunk>, chunk: Chunk, rate: nat)
    requires rate > 0 && InOrder(sent, rate)
    requires chunk.sequence == |sent| && chunk.timestamp == Timestamp(SampleCount(sent), rate)
    ensures InOrder(sent + [chunk], rate) && SampleCount(sent + [chunk]) == SampleCount(sent) + chunk.samples
  {
    var sent' := sent + [chunk];
    TotalMore(sent, chunk, SamplesOf);
    assert sent'[..|sent|] == sent;
    forall i | 0 <= i < |sent'| ensures sent'[i].timestamp == Timestamp(SampleCount(sent'[..i]), rate) {
      if i < |sent| {
        assert sent'[..i] == sent[..i];
      }
    }
  }

  lemma DeliveryKeepsOwned(s: Sys, c: nat, chunk: Chunk, fields: Fields)
    requires Owned(s) && IsOpen(s, c) && fields.input == s.fields.input
    ensures Owned(Delivered(s, c, chunk).(fields := fields))
  {
    var s' := Delivered(s, c, chunk).(fields := fields);
    assert forall d :: IsOpen(s', d) <==> IsOpen(s, d);
  }

  lemma SentIsDescribed(f: Fields, sent: seq<Chunk>, chunk: Chunk)
    requires f.input.Some? && Describes(f, sent)
    ensures Describes(Sent(f, chunk.samples), sent + [chunk])
  {
    TotalMore(sent, chunk, SamplesOf);
  }

  lemma DeliveryKeepsCounted(s: Sys, c: nat, chunk: Chunk)
    requires Counted(s) && s.fields.input == Some(c) && IsOpen(s, c)
    ensures Counted(Delivered(s, c, chunk).(fields := Sent(s.fields, chunk.samples)))
  {
    SentIsDescribed(s.fields, s.channels[c].sent, chunk);
    assert Delivered(s, c, chunk).channels[c].sent == s.channels[c].sent + [chunk];
  }

  lemma FrameKeepsInv(s: Sys, rate: nat, s': Sys)
    requires rate > 0 && Inv(s, rate) && FrameStep(s, rate, s')
    ensures Inv(s', rate)
  {
    if s' != s {
      var c := s.fields.input.value;
      var samples: nat :|
        s' == Delivered(s, c, NextChunk(s.fields, samples, rate)).(fields := Sent(s.fields, samples));
      var chunk := NextChunk(s.fields, samples, rate);
      DeliveryKeepsOwned(s, c, chunk, Sent(s.fields, samples));
      DeliveryKeepsCounted(s, c, chunk);
      ChunkInOrder(s.channels[c].sent, chunk, rate);
      assert s'.channels == s.channels[c := Channel(false, s.channels[c].sent + [chunk])];
    }
  }

  lemma StartKeepsInv(s: Sys, rate: nat, s': Sys)
    requires rate > 0 && Inv(s, rate) && StartStep(s, s')
    ensures Inv(s', rate)
  {
  }

  lemma TakeKeepsInv(s: Sys, rate: nat, s': Sys)
    requires rate > 0 && Inv(s, rate) && TakeStep(s, s')
    ensures Inv(s', rate)
  {
  }

  lemma ThreadKeepsInv(s: Sys, rate: nat, i: nat, s': Sys)
    requires rate > 0 && Inv(s, rate) && i < |s.threads| && ThreadStep(s, i, s')
    ensures Inv(s', rate)
  {
  }

  lemma NextKeepsInv(s: Sys, rate: nat, s': Sys)
    requires rate > 0 && Inv(s, rate) && Next(s, rate, s')
    ensures Inv(s', rate)
  {
    if StartStep(s, s') {
      StartKeepsInv(s, rate, s');
    } else if FrameStep(s, rate, s') {
      FrameKeepsInv(s, rate, s');
    } else if TakeStep(s, s') {
      TakeKeepsInv(s, rate, s');
    } else {
      var t: nat :| t < |s.threads| && ThreadStep(s, t, s');
      ThreadKeepsInv(s, rate, t, s');
    }
  }

  lemma {:induction false} RunKeepsInv(run: seq<Sys>, rate: nat, i: nat)
    requires rate > 0 && IsRun(run, rate) && i < |run|
    ensures Inv(run[i], rate)
  {
    if i > 0 {
      RunKeepsInv(run, rate, i - 1);
      assert Runs.StepAt(run, i, Steps(rate));
      NextKeepsInv(run[i - 1], rate, run[i]);
    }
  }

  /** In every interleaving no channel is closed twice or sent to after it was closed; on each channel
      chunks are numbered without gaps and stamped with the floor of the time sent before; and the
      byte count is twice the sample count, dropped chunks taking neither number nor time. */
  lemma ChannelsAreSafe(run: seq<Sys>, rate: nat, i: nat, c: nat)
    requires rate > 0 && IsRun(run, rate) && i < |run| && c < |run[i].channels|
    ensures var s := run[i];
      && !s.panicked
      && InOrder(s.channels[c].sent, rate)
      && (s.fields.input == Some(c) ==>
            && !s.channels[c].closed && s.fields.byteCount == 2 * s.fields.sentSamples
            && s.fields.sentSamples == SampleCount(s.channels[c].sent))
  {
    RunKeepsInv(run, rate, i);
  }

  /** A closed channel stays closed and gets nothing more. */
  lemma {:induction false} ClosedForGood(run: seq<Sys>, rate: nat, i: nat, j: nat, c: nat)
    requires rate > 0 && IsRun(run, rate) && i <= j < |run| && c < |run[i].channels| && run[i].channels[c].closed
    ensures c < |run[j].channels| && run[j].channels[c] == run[i].channels[c]
  {
    if i < j {
      ClosedForGood(run, rate, i, j - 1, c);
      assert Runs.StepAt(run, j, Steps(rate));
      ClosedStays(run[j - 1], rate, run[j], c);
    }
  }

  lemma ClosedStays(s: Sys, rate: nat, s': Sys, c: nat)
    requires rate > 0 && Next(s, rate, s') && c < |s.channels| && s.channels[c].closed
    ensures c < |s'.channels| && s'.channels[c] == s.channels[c]
  {
  }

  // An undisturbed utterance.

  ghost predicate GoesOn(run: seq<Sys>, rate: nat, run': seq<Sys>)
    requires rate > 0
  {
    Runs.Continues(run, run', Init, Steps(rate))
  }

  lemma {:induction false} FramesAreSent(run: seq<Sys>, rate: nat, c: nat, counts: seq<nat>) returns (run': seq<Sys>)
    requires rate > 0 && IsRun(run, rate) && Runs.Last(run).fields.input == Some(c)
    requires c < |Runs.Last(run).channels| && Runs.Last(run).channels[c] == Channel(false, [])
    ensures GoesOn(run, rate, run')
    ensures var s, t := Runs.Last(run), Runs.Last(run');
      && t.threads == s.threads && t.fields.input == Some(c) && !t.panicked
      && |t.channels| == |s.channels| && |t.channels[c].sent| == |counts|
      && t.channels == s.channels[c := Channel(false, t.channels[c].sent)]
      && forall k | 0 <= k < |counts| :: t.channels[c].sent[k].samples == counts[k]
  {
    RunKeepsInv(run, rate, |run| - 1);
    if counts == [] {
      run' := run;
    } else {
      var n := |counts| - 1;
      run' := FramesAreSent(run, rate, c, counts[..n]);
      RunKeepsInv(run', rate, |run'| - 1);
      var s := Runs.Last(run');
      var chunk := NextChunk(s.fields, counts[n], rate);
      var s' := Delivered(s, c, chunk).(fields := Sent(s.fields, counts[n]));
      assert FrameStep(s, rate, s');
      run' := Runs.Go(run', s', Init, Steps(rate));
      assert s'.channels[c].sent == s.channels[c].sent + [chunk];
    }
  }

  /** An utterance that nothing interferes with is sent on a channel of its own: all frames that were accepted, in
      order, numbered from zero and stamped with the time of the samples before them; then the channel is closed. */
  lemma UtteranceIsSent(run: seq<Sys>, rate: nat, turn: nat, counts: seq<nat>) returns (run': seq<Sys>)
    requires rate > 0 && turn != 0 && IsRun(run, rate) && Runs.Last(run).fields.input.None?
    ensures GoesOn(run, rate, run')
    ensures var s, t := Runs.Last(run), Runs.Last(run');
      && |t.channels| == |s.channels| + 1 && t.channels[..|s.channels|] == s.channels
      && t.fields == NO_INPUT && t.threads == s.threads + [Gone, Gone]
      && var Channel(closed, sent) := t.channels[|s.channels|];
         && closed && |sent| == |counts| && InOrder(sent, rate)
         && forall k | 0 <= k < |counts| :: sent[k].samples == counts[k]
  {
    var s, c := Runs.Last(run), |Runs.Last(run).channels|;
    var s1 := s.(fields := Started(s.fields, c, turn), channels := s.channels + [Channel(false, [])],
                 threads := s.threads + [Forwarding(c)]);
    assert StartStep(s, s1);
    run' := Runs.Go(run, s1, Init, Steps(rate));
    run' := FramesAreSent(run', rate, c, counts);
    var s2 := Runs.Last(run');
    run' := UtteranceEnds(run', rate, c);
  }

  lemma UtteranceEnds(run: seq<Sys>, rate: nat, c: nat) returns (run': seq<Sys>)
    requires rate > 0 && IsRun(run, rate) && Runs.Last(run).fields.input == Some(c)
    requires Runs.Last(run).threads != [] && Runs.Last(Runs.Last(run).threads) == Forwarding(c)
    ensures GoesOn(run, rate, run') && c < |Runs.Last(run).channels|
    ensures var s, t := Runs.Last(run), Runs.Last(run'); var n := |s.threads| - 1;
      && t.fields == NO_INPUT && t.threads == s.threads[..n] + [Gone, Gone]
      && t.channels == s.channels[c := s.channels[c].(closed := true)]
      && InOrder(t.channels[c].sent, rate)
  {
    RunKeepsInv(run, rate, |run| - 1);
    var s := Runs.Last(run);
    var n := |s.threads| - 1;
    var s1 := s.(fields := NO_INPUT, threads := s.threads + [Holding(c)]);
    assert TakeStep(s, s1);
    run' := Runs.Go(run, s1, Init, Steps(rate));
    var s2 := Closed(s1, c).(threads := s1.threads[n + 1 := Gone]);
    assert ThreadStep(s1, n + 1, s2);
    run' := Runs.Go(run', s2, Init, Steps(rate));
    var s3 := s2.(fields := Forgotten(s2.fields, c), threads := s2.threads[n := Gone]);
    assert s2.threads[n] == Forwarding(c) && ThreadStep(s2, n, s3);
    run' := Runs.Go(run', s3, Init, Steps(rate));
    assert s3.threads == s.threads[..n] + [Gone, Gone];
    RunKeepsInv(run', rate, |run'| - 1);
  }

  /** A forwarder that is done takes its own input with it if that is still the current one, and no other. */
  lemma ForwarderLeaves(s: Sys, i: nat, own: nat, s': Sys)
    requires i < |s.threads| && s.threads[i] == Forwarding(own) && ThreadStep(s, i, s') && s'.threads[i] == Gone
    ensures s'.channels == s.channels
    ensures if s.fields.input == Some(own) then s'.fields.input.None? else s'.fields == s.fields
  {
  }

  // A final of an old stream ends the input that is current, not its own.

  /** The forwarder of stream `own` ends its own input exactly if that is the current one. */
  lemma ForwarderEndsCurrentInput(s: Sys, i: nat, own: nat, s': Sys)
    requires i < |s.threads| && s.threads[i] == Forwarding(own) && ThreadStep(s, i, s')
    requires s'.threads[i].ForwardHolding?
    ensures s'.threads[i].channel == own <==> s.fields.input == Some(own)
  {
  }

  /** The input is taken away from whichever stream has it, by whatever step. */
  predicate InputTaken(s: Sys, s': Sys) {
    s.fields.input.Some? && s'.fields.input.None?
  }

  lemma InputStays(s: Sys, rate: nat, s': Sys, own: nat)
    requires rate > 0 && Next(s, rate, s') && own < |s.channels|
    ensures own < |s'.channels|
    ensures s'.fields.input == Some(own) <==> s.fields.input == Some(own) && !InputTaken(s, s')
  {
  }

  /** A stream that has the input still has it later exactly if no input was taken in between. */
  lemma {:induction false} StillTheInput(run: seq<Sys>, rate: nat, i: nat, j: nat, own: nat)
    requires rate > 0 && IsRun(run, rate) && i <= j < |run| && run[i].fields.input == Some(own)
    ensures own < |run[j].channels|
    ensures run[j].fields.input == Some(own) <==> forall k | i < k <= j :: !InputTaken(run[k - 1], run[k])
  {
    if i < j {
      StillTheInput(run, rate, i, j - 1, own);
      assert Runs.StepAt(run, j, Steps(rate));
      InputStays(run[j - 1], rate, run[j], own);
    } else {
      RunKeepsInv(run, rate, i);
    }
  }

  /** In every run: when the forwarder of the stream started by step i ends an input by step j + 1, it is
      its own exactly if no input was taken since; else it ends the input of a later stream. */
  lemma EndsItsOwnExactly(run: seq<Sys>, rate: nat, i: nat, j: nat, t: nat, own: nat)
    requires rate > 0 && IsRun(run, rate) && 0 < i <= j && j + 1 < |run|
    requires StartStep(run[i - 1], run[i]) && own == |run[i - 1].channels|
    requires t < |run[j].threads| && run[j].threads[t] == Forwarding(own)
    requires ThreadStep(run[j], t, run[j + 1]) && run[j + 1].threads[t].ForwardHolding?
    ensures var ended := run[j + 1].threads[t].channel;
      && (ended == own <==> forall k | i < k <= j :: !InputTaken(run[k - 1], run[k]))
      && own <= ended
  {
    StillTheInput(run, rate, i, j, own);
    ForwarderEndsCurrentInput(run[j], t, own, run[j + 1]);
    InputsAscend(run, rate, i, j, own);
  }

  lemma {:induction false} InputsAscend(run: seq<Sys>, rate: nat, i: nat, j: nat, own: nat)
    requires rate > 0 && IsRun(run, rate) && i <= j < |run| && run[i].fields.input == Some(own)
    ensures own < |run[j].channels|
    ensures run[j].fields.input.Some? ==> own <= run[j].fields.input.value
  {
    if i < j {
      InputsAscend(run, rate, i, j - 1, own);
      assert Runs.StepAt(run, j, Steps(rate));
    } else {
      RunKeepsInv(run, rate, i);
    }
  }

  /** Stream 0 loses its input to an end of utterance, and stream 1 gets the next. */
  lemma ReachNextInput(rate: nat) returns (run: seq<Sys>)
    requires rate > 0
    ensures IsRun(run, rate) && |run| == 5
    ensures run[4] == Sys(Started(NO_INPUT, 1, 2), [Channel(true, []), Channel(false, [])],
                          [Forwarding(0), Gone, Forwarding(1)], false)
  {
    var s0 := Sys(NO_INPUT, [], [], false);
    var open := Channel(false, []);
    var s1 := Sys(Started(NO_INPUT, 0, 1), [open], [Forwarding(0)], false);
    var s2 := Sys(NO_INPUT, [open], [Forwarding(0), Holding(0)], false);
    var s3 := Sys(NO_INPUT, [Channel(true, [])], [Forwarding(0), Gone], false);
    var s4 := Sys(Started(NO_INPUT, 1, 2), [Channel(true, []), open], [Forwarding(0), Gone, Forwarding(1)], false);
    assert StartStep(s0, s1) && TakeStep(s1, s2) && ThreadStep(s2, 1, s3) && StartStep(s3, s4);
    run := [s0, s1, s2, s3, s4];
  }

  /** Stream 0 has lost its input to an end of utterance when its late final closes the next input. */
  lemma LateFinalClosesNextInput(rate: nat) returns (run: seq<Sys>)
    requires rate > 0
    ensures IsRun(run, rate) && |run| == 7
    ensures run[4].fields.input == Some(1) && run[4].threads == [Forwarding(0), Gone, Forwarding(1)]
    ensures |run[4].channels| == 2 && !run[4].channels[1].closed
    ensures |run[6].channels| == 2 && run[6].channels[1].closed && run[6].threads == run[4].threads
  {
    var before := ReachNextInput(rate);
    var s := before[4];
    var s5 := Sys(NO_INPUT, s.channels, [ForwardHolding(0, 1), Gone, Forwarding(1)], false);
    var s6 := Sys(NO_INPUT, [Channel(true, []), Channel(true, [])], s.threads, false);
    assert ThreadStep(s, 0, s5) && ThreadStep(s5, 0, s6);
    Runs.Extend(before, s5, Init, Steps(rate));
    Runs.Extend(before + [s5], s6, Init, Steps(rate));
    run := before + [s5] + [s6];
  }
}
