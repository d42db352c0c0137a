/** One response run (responseRuntime.run and runAssistantTurn of internal/app/bot/response_runtime.go):
    the events it emits for its turn, whatever the language model streams, however synthesis goes and
    whenever the run is cancelled. */
module ResponseRun {
  import opened Text
  import opened Segmenter
  import opened HotelText

  datatype LlmEvent = LlmEvent(text: string, last: bool)

  datatype TtsEvent = TtsEvent(bytes: nat, last: bool)

  /** Synthesis of one segment fails to start or streams audio. */
  datatype Tts = TtsFailed | TtsStream(events: seq<TtsEvent>)

  datatype Event =
    | LlmPartial(text: string)
    | LlmFinal(text: string)
    | SpeakingStarted
    | SpeakingStopped
    | SegmentStarted(id: nat, text: string)
    | SegmentDone(id: nat, text: string, chunks: nat, bytes: nat, tail: bool)
    | TurnCompleted

  // The grammar of a turn's events.

  /** Where a turn's events have got to. `said` is the text so far, `segments` the segments given to
      synthesis, the last of which is still `open`. */
  datatype Phase =
    | Streaming(said: string, speaking: bool, segments: seq<string>, open: bool)
    | Drained(said: string, segments: seq<string>)            // all spoken, no tail was left
    | Finished(speaking: bool, segments: seq<string>)         // the whole reply has been announced
    | Closing(segments: seq<string>)                          // and speaking has stopped
    | Over(segments: seq<string>)
    | Wrong

  const START := Streaming("", false, [], false)

  function Advance(p: Phase, e: Event): Phase {
    match p
    case Streaming(said, speaking, segments, false) =>
      (match e
       case LlmPartial(text) => if text != "" then Streaming(said + text, speaking, segments, false) else Wrong
       case SpeakingStarted => if !speaking then Streaming(said, true, segments, false) else Wrong
       case SegmentStarted(id, text) =>
         if speaking && id == |segments| + 1 then Streaming(said, true, segments + [text], true) else Wrong
       case SpeakingStopped => if speaking then Drained(said, segments) else Wrong
       case LlmFinal(text) => if text == said then Finished(speaking, segments) else Wrong
       case _ => Wrong)
    case Streaming(said, speaking, segments, true) =>
      if e.SegmentDone? && segments != [] && e.id == |segments| && e.text == segments[|segments| - 1]
      then Streaming(said, speaking, segments, false) else Wrong
    case Drained(said, segments) => if e == LlmFinal(said) then Finished(true, segments) else Wrong
    case Finished(true, segments) => if e == SpeakingStopped then Closing(segments) else Wrong
    case Finished(false, segments) => if e == TurnCompleted then Over(segments) else Wrong
    case Closing(segments) => if e == TurnCompleted then Over(segments) else Wrong
    case _ => Wrong
  }

  function PhaseOf(log: seq<Event>): Phase {
    if log == [] then START else Advance(PhaseOf(log[..|log| - 1]), log[|log| - 1])
  }

  /** `log` is a beginning of a sentence of the grammar. */
  predicate Grammatical(log: seq<Event>) {
    PhaseOf(log) != Wrong
  }

  lemma PhaseSnoc(log: seq<Event>, e: Event)
    ensures PhaseOf(log + [e]) == Advance(PhaseOf(log), e)
  {
    assert (log + [e])[..|log|] == log;
  }

  /** Everything the run has emitted at any earlier moment is grammatical too. */
  lemma {:induction false} PrefixesAreGrammatical(log: seq<Event>, n: nat)
    requires n <= |log| && Grammatical(log)
    ensures Grammatical(log[..n])
  {
    if n == |log| {
      assert log[..n] == log;
    } else {
      PrefixesAreGrammatical(log[..|log| - 1], n);
      assert log[..|log| - 1][..n] == log[..n];
    }
  }

  // What the grammar says of single events.

  function Texts(log: seq<Event>): string {
    if log == [] then ""
    else Texts(log[..|log| - 1]) + if log[|log| - 1].LlmPartial? then log[|log| - 1].text else ""
  }

  function SpeakingStarts(log: seq<Event>): nat {
    if log == [] then 0 else SpeakingStarts(log[..|log| - 1]) + if log[|log| - 1] == SpeakingStarted then 1 else 0
  }

  function SpeakingStops(log: seq<Event>): nat {
    if log == [] then 0 else SpeakingStops(log[..|log| - 1]) + if log[|log| - 1] == SpeakingStopped then 1 else 0
  }

  /** The texts announced as they came. */
  function Partials(log: seq<Event>): seq<string> {
    if log == [] then []
    else Partials(log[..|log| - 1]) + if log[|log| - 1].LlmPartial? then [log[|log| - 1].text] else []
  }

  /** The segment events of a log: started and done, in order. */
  function SegmentEvents(log: seq<Event>): seq<Event> {
    if log == [] then []
    else
      var e := log[|log| - 1];
      SegmentEvents(log[..|log| - 1]) + if e.SegmentStarted? || e.SegmentDone? then [e] else []
  }

  /** Started and done strictly alternate, and carry the numbers 1, 2, 3, ... */
  predicate Paired(events: seq<Event>) {
    forall i | 0 <= i < |events| :: PairedAt(events, i)
  }

  predicate PairedAt(events: seq<Event>, i: nat)
    requires i < |events|
  {
    if i % 2 == 0 then events[i].SegmentStarted? && events[i].id == i / 2 + 1
    else (&& events[i].SegmentDone? && events[i].id == i / 2 + 1
          && events[i - 1].SegmentStarted? && events[i].text == events[i - 1].text)
  }

  /** The texts given to synthesis, in order. */
  function SegmentTexts(events: seq<Event>): seq<string> {
    if events == [] then []
    else
      SegmentTexts(events[..|events| - 1])
      + if events[|events| - 1].SegmentStarted? then [events[|events| - 1].text] else []
  }

  ghost predicate Describes(p: Phase, log: seq<Event>) {
    && (!p.Wrong? ==> SegmentTexts(log) == p.segments)
    && match p
       case Streaming(said, speaking, segments, open) =>
         && Texts(log) == said
         && SpeakingStarts(log) == (if speaking then 1 else 0)
         && (segments != [] ==> speaking)
         && |SegmentEvents(log)| == 2 * |segments| - (if open then 1 else 0)
         && (open ==> (segments != []
              && SegmentEvents(log)[2 * |segments| - 2] == SegmentStarted(|segments|, segments[|segments| - 1])))
       case Drained(said, _) => Texts(log) == said && SpeakingStarts(log) == 1 && |SegmentEvents(log)| % 2 == 0
       case Finished(speaking, _) => SpeakingStarts(log) == (if speaking then 1 else 0) && |SegmentEvents(log)| % 2 == 0
       case _ => SpeakingStarts(log) <= 1 && |SegmentEvents(log)| % 2 == 0
  }

  lemma LogSnoc(log: seq<Event>, e: Event)
    ensures Texts(log + [e]) == Texts(log) + if e.LlmPartial? then e.text else ""
    ensures SpeakingStarts(log + [e]) == SpeakingStarts(log) + if e == SpeakingStarted then 1 else 0
    ensures SegmentTexts(log + [e]) == SegmentTexts(log) + if e.SegmentStarted? then [e.text] else []
    ensures SegmentEvents(log + [e]) == SegmentEvents(log) + if e.SegmentStarted? || e.SegmentDone? then [e] else []
  {
    assert (log + [e])[..|log|] == log;
  }

  lemma PairedMore(events: seq<Event>, e: Event)
    requires Paired(events) && PairedAt(events + [e], |events|)
    ensures Paired(events + [e])
  {
    forall i | 0 <= i < |events + [e]| ensures PairedAt(events + [e], i) {
      if i < |events| {
        assert PairedAt(events, i);
      }
    }
  }

  lemma PairedStarted(events: seq<Event>, id: nat, text: string)
    requires Paired(events) && |events| == 2 * (id - 1)
    ensures Paired(events + [SegmentStarted(id, text)])
  {
    assert |events| % 2 == 0 && |events| / 2 == id - 1;
    PairedMore(events, SegmentStarted(id, text));
  }

  lemma PairedDone(events: seq<Event>, done: Event)
    requires Paired(events) && done.SegmentDone? && |events| == 2 * done.id - 1
    requires events[|events| - 1] == SegmentStarted(done.id, done.text)
    ensures Paired(events + [done])
  {
    assert |events| % 2 == 1 && |events| / 2 == done.id - 1;
    PairedMore(events, done);
  }

  lemma SegmentStep(p: Phase, log: seq<Event>, e: Event)
    requires Describes(p, log) && Paired(SegmentEvents(log)) && Advance(p, e) != Wrong
    requires e.SegmentStarted? || e.SegmentDone?
    ensures Describes(Advance(p, e), log + [e]) && Paired(SegmentEvents(log + [e]))
  {
    LogSnoc(log, e);
    if e.SegmentStarted? {
      PairedStarted(SegmentEvents(log), e.id, e.text);
    } else {
      PairedDone(SegmentEvents(log), e);
    }
  }

  lemma OtherStep(p: Phase, log: seq<Event>, e: Event)
    requires Describes(p, log) && Advance(p, e) != Wrong
    requires !e.SegmentStarted? && !e.SegmentDone?
    ensures Describes(Advance(p, e), log + [e]) && SegmentEvents(log + [e]) == SegmentEvents(log)
  {
    LogSnoc(log, e);
  }

  lemma DescribesStep(p: Phase, log: seq<Event>, e: Event)
    requires Describes(p, log) && Paired(SegmentEvents(log)) && Advance(p, e) != Wrong
    ensures Describes(Advance(p, e), log + [e]) && Paired(SegmentEvents(log + [e]))
  {
    if e.SegmentStarted? || e.SegmentDone? {
      SegmentStep(p, log, e);
    } else {
      OtherStep(p, log, e);
    }
  }

  lemma {:induction false} PhaseDescribes(log: seq<Event>)
    requires Grammatical(log)
    ensures Describes(PhaseOf(log), log) && Paired(SegmentEvents(log))
  {
    if log != [] {
      var before, e := log[..|log| - 1], log[|log| - 1];
      PhaseDescribes(before);
      DescribesStep(PhaseOf(before), before, e);
      assert log == before + [e];
    }
  }

  /** In every grammatical log speaking starts at most once and before any segment, and segments are
      numbered 1, 2, 3, ... with started and done strictly paired. */
  lemma GrammarPairsSegments(log: seq<Event>)
    requires Grammatical(log)
    ensures SpeakingStarts(log) <= 1
    ensures Paired(SegmentEvents(log))
    ensures SegmentEvents(log) != [] ==> SpeakingStarts(log) == 1
  {
    PhaseDescribes(log);
    SpeakingBeforeSegments(log);
  }

  lemma {:induction false} SpeakingBeforeSegments(log: seq<Event>)
    requires Grammatical(log)
    ensures SegmentEvents(log) != [] ==> SpeakingStarts(log) >= 1
  {
    if log != [] {
      SpeakingBeforeSegments(log[..|log| - 1]);
      PhaseDescribes(log[..|log| - 1]);
    }
  }

  /** The final text is the concatenation of the partial texts before it; all its segments have been
      spoken by then; nothing but the end of speaking and the completion of the turn may follow. */
  lemma GrammarOfFinal(log: seq<Event>, n: nat)
    requires Grammatical(log) && n < |log| && log[n].LlmFinal?
    ensures log[n].text == Texts(log[..n])
    ensures EndsTurn(log[n + 1..])
  {
    PrefixesAreGrammatical(log, n);
    PhaseAt(log, n);
    PhaseDescribes(log[..n]);
    AfterFinal(log, n + 1);
  }

  lemma PhaseAt(log: seq<Event>, n: nat)
    requires Grammatical(log) && n < |log|
    ensures PhaseOf(log[..n + 1]) == Advance(PhaseOf(log[..n]), log[n]) != Wrong
  {
    PrefixesAreGrammatical(log, n + 1);
    assert log[..n + 1][..n] == log[..n];
  }

  lemma AfterOver(log: seq<Event>, n: nat)
    requires Grammatical(log) && n <= |log| && PhaseOf(log[..n]).Over?
    ensures n == |log|
  {
    if n < |log| {
      PhaseAt(log, n);
    }
  }

  lemma AfterClosing(log: seq<Event>, n: nat)
    requires Grammatical(log) && n <= |log| && PhaseOf(log[..n]).Closing?
    ensures log[n..] == [] || log[n..] == [TurnCompleted]
  {
    if n < |log| {
      PhaseAt(log, n);
      assert log[n] == TurnCompleted;
      AfterOver(log, n + 1);
      assert log[n..] == [log[n]];
    }
  }

  lemma AfterFinal(log: seq<Event>, n: nat)
    requires Grammatical(log) && n <= |log| && PhaseOf(log[..n]).Finished?
    ensures EndsTurn(log[n..])
  {
    if n < |log| {
      PhaseAt(log, n);
      if log[n] == SpeakingStopped {
        AfterClosing(log, n + 1);
        assert log[n..] == [SpeakingStopped] + log[n + 1..];
      } else {
        AfterOver(log, n + 1);
      }
    }
  }

  predicate EndsTurn(rest: seq<Event>) {
    || rest == [] || rest == [SpeakingStopped] || rest == [TurnCompleted]
    || rest == [SpeakingStopped, TurnCompleted]
  }

  /** turn.completed is the last event of a turn. */
  lemma CompletedIsLast(log: seq<Event>, n: nat)
    requires Grammatical(log) && n < |log| && log[n] == TurnCompleted
    ensures n == |log| - 1
  {
    PhaseAt(log, n);
    AfterOver(log, n + 1);
  }

  // The run.

  /** Events and bytes of one segment's audio that synthesizeSegment counts: up to the last one. */
  function Counted(events: seq<TtsEvent>): (nat, nat)
    decreases |events|
  {
    if events == [] then (0, 0)
    else
      var rest := if events[0].last then (0, 0) else Counted(events[1..]);
      (1 + rest.0, events[0].bytes + rest.1)
  }

  function BytesOf(events: seq<TtsEvent>, n: nat): nat
    requires n <= |events|
  {
    if n == 0 then 0 else BytesOf(events, n - 1) + events[n - 1].bytes
  }

  lemma {:induction false} BytesFrom(events: seq<TtsEvent>, n: nat)
    requires 0 < n <= |events|
    ensures BytesOf(events, n) == events[0].bytes + BytesOf(events[1..], n - 1)
  {
    if n > 1 {
      BytesFrom(events, n - 1);
    }
  }

  /** Everything is counted up to the first event that is marked as last, that event included. */
  lemma {:induction false} CountsUpToLast(events: seq<TtsEvent>, n: nat)
    requires n <= |events| && forall k | 0 <= k < n - 1 :: !events[k].last
    requires n < |events| ==> n > 0 && events[n - 1].last
    ensures Counted(events) == (n, BytesOf(events, n))
  {
    if n > 1 {
      CountsUpToLast(events[1..], n - 1);
      BytesFrom(events, n);
    }
  }

  function CountedOf(tts: Tts): (nat, nat) {
    match tts
    case TtsFailed => (0, 0)
    case TtsStream(events) => Counted(events)
  }

  /** How many events of a stream a run reads: up to the first that is marked as last. */
  function ReadCount(events: seq<LlmEvent>): (n: nat)
    ensures n <= |events|
    ensures forall k | 0 <= k < n - 1 :: !events[k].last
    ensures n < |events| ==> n > 0 && events[n - 1].last
  {
    if events == [] then 0 else if events[0].last then 1 else 1 + ReadCount(events[1..])
  }

  lemma ReadCountIs(events: seq<LlmEvent>, n: nat)
    requires n <= |events| && forall k | 0 <= k < n - 1 :: !events[k].last
    requires n < |events| ==> n > 0 && events[n - 1].last
    ensures ReadCount(events) == n
  {
  }

  function TextsRead(events: seq<LlmEvent>, n: nat): string
    requires n <= |events|
  {
    if n == 0 then "" else TextsRead(events, n - 1) + events[n - 1].text
  }

  /** The whole reply: the text of the events that are read. */
  function Reply(events: seq<LlmEvent>): string {
    TextsRead(events, ReadCount(events))
  }

  predicate ShouldScheduleEndCall(reply: string, why: string) {
    var text, reason := TrimSpace(reply), TrimSpace(why);
    && text != ""
    && if reason == "reservation_confirmed" then LooksConfirmed(text) || Contains(text, "确认号")
       else if reason == "user_declined" || reason == "bot_farewell" then LooksFarewell(text)
       else LooksConfirmed(text) || Contains(text, "确认号") || LooksFarewell(text)
  }

  /** A finished reply ends the call exactly if it says what the directive's reason tells to expect: that a booking
      is confirmed, or farewell; either will do for a reason that is none of the three. */
  lemma EndCallExactly(reply: string, why: string)
    ensures var confirmed := Says(reply, ["已确认", "预订成功", "订好了", "已为您预订", "期待您光临"]) || Contains(reply, "确认号");
      ShouldScheduleEndCall(reply, why) <==>
        match TrimSpace(why)
        case "reservation_confirmed" => confirmed
        case "user_declined" => SaysFarewell(reply)
        case "bot_farewell" => SaysFarewell(reply)
        case _ => confirmed || SaysFarewell(reply)
  {
    var text := TrimSpace(reply);
    var phrases := ["已确认", "预订成功", "订好了", "已为您预订", "期待您光临"];
    TrimmedSays(reply, phrases);
    ConfirmedExactly(text);
    TrimKeepsPhrase(reply, "确认号");
    FarewellExactly(reply);
    FarewellExactly(text);
    TrimmedTwice(reply);
    if text == "" {
      assert forall k | 0 <= k < |phrases| :: !Contains(text, phrases[k]);
      assert !Contains(text, "确认号");
    }
  }

  lemma TrimmedTwice(s: string)
    ensures TrimSpace(TrimSpace(s)) == TrimSpace(s)
  {
    var a, b := TrimSpaceSlices(s);
    var t := TrimSpace(s);
    if a < b {
      assert t[0] == s[a] && t[|t| - 1] == s[b - 1];
    }
  }

  /** The texts of the first n events, without the empty ones. */
  function ChunksRead(events: seq<LlmEvent>, n: nat): seq<string>
    requires n <= |events|
  {
    if n == 0 then [] else ChunksRead(events, n - 1) + if events[n - 1].text != "" then [events[n - 1].text] else []
  }

  /** The texts announced make up the reply. */
  lemma {:induction false} ChunksSay(events: seq<LlmEvent>, n: nat)
    requires n <= |events|
    ensures Join(ChunksRead(events, n)) == TextsRead(events, n)
  {
    if n > 0 {
      ChunksSay(events, n - 1);
      var before, text := ChunksRead(events, n - 1), events[n - 1].text;
      JoinMore(before, text);
      assert before + [] == before;
    }
  }

  lemma JoinMore(chunks: seq<string>, text: string)
    ensures Join(chunks) + "" == Join(chunks)
    ensures Join(chunks + [text]) == Join(chunks) + text
  {
    JoinConcat(chunks, [text]);
    JoinOne(text);
  }

  lemma {:induction false} NoChunkIsEmpty(events: seq<LlmEvent>, n: nat)
    requires n <= |events|
    ensures forall k | 0 <= k < |ChunksRead(events, n)| :: ChunksRead(events, n)[k] != ""
  {
    if n > 0 {
      NoChunkIsEmpty(events, n - 1);
    }
  }

  /** How often the log says that speaking starts and stops, and the texts it announces. */
  datatype Tally = Tally(partials: seq<string>, starts: nat, stops: nat)

  function TallyOf(log: seq<Event>): Tally {
    Tally(Partials(log), SpeakingStarts(log), SpeakingStops(log))
  }

  function Tallied(t: Tally, e: Event): Tally {
    match e
    case LlmPartial(text) => t.(partials := t.partials + [text])
    case SpeakingStarted => t.(starts := t.starts + 1)
    case SpeakingStopped => t.(stops := t.stops + 1)
    case _ => t
  }

  lemma TallySnoc(log: seq<Event>, e: Event)
    ensures TallyOf(log + [e]) == Tallied(TallyOf(log), e)
  {
    assert (log + [e])[..|log|] == log;
  }

  /** Whenever a text is announced, all segments completed before it have been given to synthesis. */
  ghost predicate Prompt(log: seq<Event>, marks: set<char>) {
    forall i | 0 <= i < |log| && log[i].LlmPartial? :: PromptAt(log[..i], marks)
  }

  predicate PromptAt(log: seq<Event>, marks: set<char>) {
    SegmentTexts(log) == Scan(marks, "", Texts(log)).0
  }

  lemma PromptMore(log: seq<Event>, e: Event, marks: set<char>)
    requires Prompt(log, marks) && (e.LlmPartial? ==> PromptAt(log, marks))
    ensures Prompt(log + [e], marks)
  {
    forall i | 0 <= i < |log + [e]| && (log + [e])[i].LlmPartial? ensures PromptAt((log + [e])[..i], marks) {
      if i < |log| {
        assert (log + [e])[..i] == log[..i];
        assert PromptAt(log[..i], marks);
      } else {
        assert (log + [e])[..i] == log;
      }
    }
  }

  /** What the run meets outside itself. `stopAt` tells which of its three looks at the context is
      the first to find it cancelled (3 if none does). */
  datatype World = World(
    started: bool,                // StartResponse succeeded
    llmStarts: bool,
    events: seq<LlmEvent>,
    tts: nat -> Tts,              // synthesis of each segment id
    stopAt: nat,
    completes: bool,              // CompleteTurn succeeds
    endCall: seq<string>)         // the reason of an end_call directive, if there is one

  /** What is reported of a segment: the audio that its synthesis gave, and whether it is the tail, that is,
      comes after the `n` segments completed by marks. */
  predicate Reports(e: Event, w: World, n: nat, max: nat)
    requires e.SegmentDone?
  {
    e.id <= max && (e.chunks, e.bytes) == CountedOf(w.tts(e.id)) && (e.tail <==> e.id > n)
  }

  ghost predicate Told(log: seq<Event>, w: World, n: nat, max: nat) {
    forall i | 0 <= i < |log| && log[i].SegmentDone? :: Reports(log[i], w, n, max)
  }

  lemma ToldMore(log: seq<Event>, e: Event, w: World, n: nat, max: nat, n': nat, max': nat)
    requires Told(log, w, n, max) && (n == n' || max <= n <= n') && max <= max'
    requires e.SegmentDone? ==> Reports(e, w, n', max')
    ensures Told(log + [e], w, n', max')
  {
    forall i | 0 <= i < |log + [e]| && (log + [e])[i].SegmentDone? ensures Reports((log + [e])[i], w, n', max') {
      if i < |log| {
        assert Reports(log[i], w, n, max);
      }
    }
  }

  class Runtime {
    const punctuation: string
    var log: seq<Event>

    constructor (punctuation: string)
      ensures this.punctuation == punctuation && log == []
    {
      this.punctuation := punctuation;
      log := [];
    }

    method SynthesizeSegment(id: nat, text: string, tail: bool, tts: Tts)
      modifies this`log
      ensures log == old(log) +
        [SegmentStarted(id, text), SegmentDone(id, text, CountedOf(tts).0, CountedOf(tts).1, tail)]
      ensures tts.TtsFailed? ==> log == old(log) + [SegmentStarted(id, text), SegmentDone(id, text, 0, 0, tail)]
    {
      log := log + [SegmentStarted(id, text)];
      match tts {
        case TtsFailed =>
          log := log + [SegmentDone(id, text, 0, 0, tail)];
        case TtsStream(events) =>
          var chunks, bytes := 0, 0;
          var i, stop := 0, false;
          assert events[0..] == events;
          while i < |events| && !stop
            invariant 0 <= i <= |events|
            invariant Counted(events) == if stop then (chunks, bytes)
              else (chunks + Counted(events[i..]).0, bytes + Counted(events[i..]).1)
          {
            assert events[i..][1..] == events[i + 1..];
            chunks := chunks + 1;
            bytes := bytes + events[i].bytes;
            stop := events[i].last;
            i := i + 1;
          }
          log := log + [SegmentDone(id, text, chunks, bytes, tail)];
      }
    }

    method CompleteTurn(completes: bool)
      modifies this`log
      ensures log == old(log) + if completes then [TurnCompleted] else []
    {
      if !completes {
        return;
      }
      log := log + [TurnCompleted];
    }

    function Marks(): set<char> {
      set c | c in punctuation
    }

    /** The segments given to synthesis: those of the whole reply, or all but the tail if the run finds
        itself cancelled when the model has ended. */
    function Given(reply: string, stopAt: nat): seq<string> {
      if stopAt == 0 then Scan(Marks(), "", reply).0 else Segments(Marks(), reply)
    }

    /** The run of a turn, from StartResponse on. A run that may answer its turn and reaches the model
        emits a beginning of the grammar; one that is never cancelled says the whole reply, and
        completes the turn if the task lets it. The end of the call is scheduled even if it does not. */
    method Run(w: World) returns (scheduled: bool)
      requires log == []
      modifies this`log
      ensures !w.started ==> log == []
      ensures w.started && !w.llmStarts ==> log == if w.completes then [TurnCompleted] else []
      ensures w.started && w.llmStarts ==> Grammatical(log) && Texts(log) == Reply(w.events)
      ensures w.started && w.llmStarts ==> PhaseOf(log).segments == Given(Reply(w.events), w.stopAt)
      ensures w.started && w.llmStarts ==>
        var n := |Scan(Marks(), "", Reply(w.events)).0|; Told(log, w, n, n + 1)
      ensures w.started && w.llmStarts ==> EndsAt(PhaseOf(log), w.stopAt >= 3, w.completes)
      ensures w.started && w.llmStarts ==>
        && Prompt(log, Marks())
        && TallyOf(log) == Expected(w, Scan(Marks(), "", Reply(w.events)).0, Segments(Marks(), Reply(w.events)))
      ensures scheduled <==> (w.started && w.llmStarts && w.stopAt >= 3
        && w.endCall != [] && ShouldScheduleEndCall(Reply(w.events), w.endCall[0]))
    {
      scheduled := false;
      if !w.started {
        return;
      }
      if !w.llmStarts {
        CompleteTurn(w.completes);
        return;
      }
      var fullText, finished := Stream(w);
      scheduled := finished && w.endCall != [] && ShouldScheduleEndCall(fullText, w.endCall[0]);
    }

    /** run from the first event of the model's stream to the completion of the turn. */
    method Stream(w: World) returns (fullText: string, finished: bool)
      requires log == []
      modifies this`log
      ensures fullText == Reply(w.events) == Texts(log)
      ensures Grammatical(log)
      ensures finished <==> w.stopAt >= 3
      ensures EndsAt(PhaseOf(log), finished, w.completes)
      ensures PhaseOf(log).segments == Given(fullText, w.stopAt)
      ensures var n := |Scan(Marks(), "", fullText).0|; Told(log, w, n, n + 1)
      ensures Prompt(log, Marks())
      ensures TallyOf(log) == Expected(w, Scan(Marks(), "", fullText).0, Segments(Marks(), fullText))
    {
      var segmenter := new PunctuationBoundarySegmenter(punctuation);
      var segmentID, speaking;
      ghost var given;
      fullText, segmentID, speaking, given := ReadStream(w, segmenter);
      if w.stopAt == 0 {
        return fullText, false;
      }
      TailCompletes(Marks(), fullText);
      finished := Finish(w, segmenter, fullText, segmentID, speaking, given);
    }

    /** The rest of the run, once the model's stream has ended and the run was not cancelled before. */
    method Finish(w: World, segmenter: PunctuationBoundarySegmenter, fullText: string, segmentID: nat, spoke: bool,
                  ghost given: seq<string>)
      returns (finished: bool)
      requires w.stopAt > 0 && At(fullText, spoke, given, segmentID) && Told(log, w, segmentID, segmentID)
      requires Prompt(log, Marks()) && (spoke <==> given != [])
      requires TallyOf(log) == Tally(TallyOf(log).partials, if spoke then 1 else 0, 0)
      modifies this`log, segmenter
      ensures fullText == Texts(log) && (finished <==> w.stopAt >= 3) && EndsAt(PhaseOf(log), finished, w.completes)
      ensures PhaseOf(log).segments == given + Trimmed(old(segmenter.buffer))
      ensures Told(log, w, segmentID, segmentID + 1) && Prompt(log, Marks())
      ensures TallyOf(log) ==
        Ended(w, TallyOf(old(log)).partials, given, given + Trimmed(old(segmenter.buffer)))
    {
      var tail := segmenter.Flush();
      var speaking := SpeakTail(w, tail, fullText, segmentID, spoke, given);
      if w.stopAt == 1 {
        return false;
      }
      finished := Conclude(w, fullText, speaking, given + if tail != "" then [tail] else [], segmentID);
    }

    /** The loop over the model's stream. */
    method ReadStream(w: World, segmenter: PunctuationBoundarySegmenter)
      returns (fullText: string, segmentID: nat, speaking: bool, ghost given: seq<string>)
      requires log == [] && segmenter.punctuation == Marks() && segmenter.buffer == ""
      modifies this`log, segmenter
      ensures fullText == Reply(w.events)
      ensures Reading(w, segmenter.buffer, fullText, speaking, given, segmentID,
                      ChunksRead(w.events, ReadCount(w.events)))
    {
      fullText, segmentID, speaking, given := "", 0, false, [];
      var i, final := 0, false;
      while i < |w.events| && !final
        invariant 0 <= i <= |w.events|
        invariant fullText == TextsRead(w.events, i)
        invariant forall k | 0 <= k < i - 1 :: !w.events[k].last
        invariant final <==> i > 0 && w.events[i - 1].last
        invariant Reading(w, segmenter.buffer, fullText, speaking, given, segmentID, ChunksRead(w.events, i))
      {
        var event := w.events[i];
        segmentID, speaking, given := TakeChunk(w, segmenter, event.text, fullText, segmentID, speaking, given,
                                                ChunksRead(w.events, i));
        fullText := fullText + event.text;
        final := event.last;
        i := i + 1;
      }
      ReadCountIs(w.events, i);
    }

    /** One event of the stream: its text, unless it is empty, is announced, and the segments it completes are
        spoken. */
    method TakeChunk(w: World, segmenter: PunctuationBoundarySegmenter, text: string, ghost said: string,
                     count: nat, spoke: bool, ghost before: seq<string>, ghost partials: seq<string>)
      returns (segmentID: nat, speaking: bool, ghost given: seq<string>)
      requires segmenter.punctuation == Marks() && Reading(w, segmenter.buffer, said, spoke, before, count, partials)
      modifies this`log, segmenter
      ensures Reading(w, segmenter.buffer, said + text, speaking, given, segmentID,
                      partials + if text != "" then [text] else [])
    {
      if text == "" {
        assert said + text == said && partials + [] == partials;
        return count, spoke, before;
      }
      ScanConcat(Marks(), "", said, text);
      ToldMore(log, LlmPartial(text), w, count, count, count, count);
      PhaseDescribes(log);
      Emit(LlmPartial(text));
      var segments := segmenter.Push(text);
      segmentID, speaking := SpeakAll(w, segments, count, spoke, said + text, before);
      given := before + segments;
    }

    /** The run has said `said`, has given `given` to synthesis and is between segments. */
    ghost predicate At(said: string, speaking: bool, given: seq<string>, segmentID: nat)
      reads this
    {
      && PhaseOf(log) == Streaming(said, speaking, given, false)
      && |given| == segmentID && Texts(log) == said
    }

    /** The same, with all segments completed so far given to synthesis, and what has been announced. */
    ghost predicate Reading(w: World, buffer: string, said: string, speaking: bool, given: seq<string>, segmentID: nat,
                            partials: seq<string>)
      reads this
    {
      && At(said, speaking, given, segmentID) && Told(log, w, segmentID, segmentID)
      && Scan(Marks(), "", said) == (given, buffer)
      && Prompt(log, Marks()) && (speaking <==> given != [])
      && TallyOf(log) == Tally(partials, if speaking then 1 else 0, 0)
    }

    /** The inner loop of run: the segments that a chunk has completed. */
    method SpeakAll(w: World, segments: seq<string>, count: nat, spoke: bool, ghost said: string,
                    ghost given: seq<string>)
      returns (segmentID: nat, speaking: bool)
      requires At(said, spoke, given, count) && Told(log, w, count, count) && Prompt(log, Marks())
      modifies this`log
      ensures At(said, speaking, given + segments, segmentID) && Told(log, w, segmentID, segmentID)
      ensures Prompt(log, Marks()) && (speaking <==> spoke || segments != [])
      ensures var t := TallyOf(old(log)); TallyOf(log) == t.(starts := t.starts + if !spoke && speaking then 1 else 0)
    {
      segmentID, speaking := count, spoke;
      for j := 0 to |segments|
        invariant At(said, speaking, given + segments[..j], segmentID) && Told(log, w, segmentID, segmentID)
        invariant Prompt(log, Marks()) && (speaking <==> spoke || j > 0)
        invariant var t := TallyOf(old(log));
          TallyOf(log) == t.(starts := t.starts + if !spoke && speaking then 1 else 0)
      {
        assert given + segments[..j + 1] == given + segments[..j] + [segments[j]];
        segmentID := Speak(w, segmentID, segments[j], false, speaking, said, given + segments[..j]);
        speaking := true;
      }
      assert segments[..|segments|] == segments;
    }

    /** All of the reply has been given to synthesis. */
    ghost predicate Spoken(said: string, speaking: bool, all: seq<string>)
      reads this
    {
      && Texts(log) == said
      && (PhaseOf(log) == Streaming(said, speaking, all, false) || (speaking && PhaseOf(log) == Drained(said, all)))
    }

    /** The tail that the segmenter still holds, or else the end of speaking. */
    method SpeakTail(w: World, tail: string, fullText: string, count: nat, spoke: bool, ghost given: seq<string>)
      returns (speaking: bool)
      requires At(fullText, spoke, given, count) && Told(log, w, count, count) && Prompt(log, Marks())
      modifies this`log
      ensures Spoken(fullText, speaking, given + if tail != "" then [tail] else []) && Told(log, w, count, count + 1)
      ensures Prompt(log, Marks()) && (speaking <==> spoke || tail != "")
      ensures var t := TallyOf(old(log));
        TallyOf(log) == Tally(t.partials, t.starts + (if !spoke && speaking then 1 else 0),
                              t.stops + if spoke && tail == "" then 1 else 0)
    {
      speaking := spoke;
      if tail != "" {
        var segmentID := Speak(w, count, tail, true, speaking, fullText, given);
        speaking := true;
      } else {
        ToldMore(log, SpeakingStopped, w, count, count, count, count + 1);
        if speaking {
          Emit(SpeakingStopped);
        }
      }
    }

    /** The final text, the end of speaking and the completion of the turn. */
    method Conclude(w: World, fullText: string, speaking: bool, ghost all: seq<string>, ghost count: nat)
      returns (finished: bool)
      requires Spoken(fullText, speaking, all) && Told(log, w, count, count + 1) && Prompt(log, Marks())
      modifies this`log
      ensures Texts(log) == fullText && Told(log, w, count, count + 1) && Prompt(log, Marks())
      ensures var t := TallyOf(old(log)); TallyOf(log) == t.(stops := t.stops + if finished && speaking then 1 else 0)
      ensures finished <==> w.stopAt > 2
      ensures EndsAt(PhaseOf(log), finished, w.completes) && PhaseOf(log).segments == all
    {
      EmitLast(w, LlmFinal(fullText), count);
      assert PhaseOf(log) == Finished(speaking, all);
      if w.stopAt <= 2 {
        return false;
      }
      if speaking {
        EmitLast(w, SpeakingStopped, count);
        assert PhaseOf(log) == Phase.Closing(all);
      }
      if w.completes {
        EmitLast(w, TurnCompleted, count);
      }
      return true;
    }

    /** One of the events behind all segments. */
    method EmitLast(w: World, e: Event, ghost count: nat)
      requires !e.SegmentDone? && !e.LlmPartial? && Told(log, w, count, count + 1) && Prompt(log, Marks())
      modifies this`log
      ensures PhaseOf(log) == Advance(PhaseOf(old(log)), e) && TallyOf(log) == Tallied(TallyOf(old(log)), e)
      ensures Texts(log) == Texts(old(log)) && Told(log, w, count, count + 1) && Prompt(log, Marks())
    {
      ToldMore(log, e, w, count, count + 1, count, count + 1);
      Emit(e);
      assert Texts(old(log)) + "" == Texts(old(log));
    }

    /** Announces that the bot speaks, if it did not yet, and synthesizes the next segment. */
    method Speak(w: World, count: nat, text: string, tail: bool, speaking: bool, ghost said: string,
                 ghost given: seq<string>)
      returns (segmentID: nat)
      requires At(said, speaking, given, count) && Told(log, w, count, count) && Prompt(log, Marks())
      modifies this`log
      ensures segmentID == count + 1 && At(said, true, given + [text], segmentID)
      ensures Told(log, w, if tail then count else segmentID, segmentID) && Prompt(log, Marks())
      ensures var t := TallyOf(old(log)); TallyOf(log) == t.(starts := t.starts + if speaking then 0 else 1)
    {
      if !speaking {
        ToldMore(log, SpeakingStarted, w, count, count, count, count);
        Emit(SpeakingStarted);
      }
      segmentID := count + 1;
      ghost var before := log;
      SynthesizeSegment(segmentID, text, tail, w.tts(segmentID));
      SegmentSpoken(before, log[|log| - 1], said, given, text);
      SegmentTold(before, log[|log| - 1], w, count, tail);
      SegmentTallied(before, log[|log| - 1], text, Marks());
    }

    method Emit(e: Event)
      requires Prompt(log, Marks()) && (e.LlmPartial? ==> PromptAt(log, Marks()))
      modifies this`log
      ensures log == old(log) + [e]
      ensures Prompt(log, Marks()) && TallyOf(log) == Tallied(TallyOf(old(log)), e)
      ensures PhaseOf(log) == Advance(PhaseOf(old(log)), e)
      ensures Texts(log) == Texts(old(log)) + if e.LlmPartial? then e.text else ""
    {
      PhaseSnoc(log, e);
      LogSnoc(log, e);
      TallySnoc(log, e);
      PromptMore(log, e, Marks());
      log := log + [e];
    }

    /** The opening turn: its events are a beginning of one fixed sentence. `stopAt` is the first of
        its two looks at the context that finds it cancelled. */
    method RunAssistantTurn(text: string, started: bool, tts: Tts, stopAt: nat, completes: bool)
      requires log == []
      modifies this`log
      ensures !started ==> log == []
      ensures var (chunks, bytes) := CountedOf(tts);
        started ==> log <= [SpeakingStarted, SegmentStarted(1, text), SegmentDone(1, text, chunks, bytes, true),
                            SpeakingStopped, TurnCompleted]
      ensures started ==> |log| == if stopAt < 2 then 3 else if completes then 5 else 4
    {
      if !started {
        return;
      }
      log := log + [SpeakingStarted];
      SynthesizeSegment(1, text, true, tts);
      if stopAt < 2 {
        return;
      }
      log := log + [SpeakingStopped];
      CompleteTurn(completes);
    }
  }

  /** What a run that reached the model's end announces, starts and stops: every text as it came; speaking once
      if there is anything to say; the end of speaking when all segments were completed by marks, and again
      when the audio has been played. */
  function Expected(w: World, completed: seq<string>, all: seq<string>): Tally {
    Ended(w, ChunksRead(w.events, ReadCount(w.events)), completed, if w.stopAt == 0 then completed else all)
  }

  function Ended(w: World, partials: seq<string>, completed: seq<string>, given: seq<string>): Tally {
    Tally(partials, if given != [] then 1 else 0,
          (if w.stopAt >= 1 && completed != [] && given == completed then 1 else 0)
          + if w.stopAt >= 3 && given != [] then 1 else 0)
  }

  lemma SegmentTallied(before: seq<Event>, done: Event, text: string, marks: set<char>)
    requires done.SegmentDone? && Prompt(before, marks)
    ensures var after := before + [SegmentStarted(done.id, text), done];
      TallyOf(after) == TallyOf(before) && Prompt(after, marks)
  {
    var started := SegmentStarted(done.id, text);
    TallySnoc(before, started);
    TallySnoc(before + [started], done);
    PromptMore(before, started, marks);
    PromptMore(before + [started], done, marks);
    assert before + [started, done] == before + [started] + [done];
  }

  lemma TailCompletes(marks: set<char>, text: string)
    ensures Segments(marks, text) == Scan(marks, "", text).0 + Trimmed(Scan(marks, "", text).1)
  {
    ScanIsBatch(marks, "", text);
    assert "" + text == text;
  }

  /** A cancelled run never completes its turn; any other says the whole reply and stops speaking, and
      completes its turn if the task lets it. */
  predicate EndsAt(p: Phase, finished: bool, completes: bool) {
    if !finished then !p.Over? && !p.Wrong?
    else if completes then p.Over?
    else p.Closing? || (p.Finished? && !p.speaking)
  }

  lemma SegmentTold(before: seq<Event>, done: Event, w: World, count: nat, tail: bool)
    requires Told(before, w, count, count) && done.SegmentDone? && done.id == count + 1 && done.tail == tail
    requires (done.chunks, done.bytes) == CountedOf(w.tts(done.id))
    ensures Told(before + [SegmentStarted(done.id, done.text), done], w, if tail then count else count + 1, count + 1)
  {
    var started := SegmentStarted(done.id, done.text);
    ToldMore(before, started, w, count, count, count, count);
    ToldMore(before + [started], done, w, count, count, if tail then count else count + 1, count + 1);
    assert before + [started, done] == before + [started] + [done];
  }

  /** A segment is announced, synthesized and reported. */
  lemma SegmentSpoken(before: seq<Event>, done: Event, said: string, given: seq<string>, text: string)
    requires PhaseOf(before) == Streaming(said, true, given, false)
    requires done.SegmentDone? && done.id == |given| + 1 && done.text == text
    ensures var after := before + [SegmentStarted(|given| + 1, text), done];
      PhaseOf(after) == Streaming(said, true, given + [text], false) && Texts(after) == Texts(before)
  {
    var started := SegmentStarted(|given| + 1, text);
    PhaseSnoc(before, started);
    PhaseSnoc(before + [started], done);
    LogSnoc(before, started);
    LogSnoc(before + [started], done);
    assert before + [started, done] == before + [started] + [done];
  }
}
