/** What the bot makes of a recognizer's event stream (forwardEvents of internal/app/bot/asr_runtime.go). */
module AsrFilter {
  import opened Text

  datatype Event = Event(text: string, last: bool)

  const REPEATS := 4
  const STABLE_FOR := 1500  // milliseconds

  predicate ShouldPromoteStablePartial(text: string, repeatCount: int, lastPartialAt: int, now: int) {
    if TrimSpace(text) == "" then false
    else if repeatCount < REPEATS then false
    else if now - lastPartialAt < STABLE_FOR then false
    else ContainsAny(text, "。！？!?")
  }

  // The batch rule, from the whole stream and its arrival times.

  predicate IsPartial(e: Event) {
    !e.last && e.text != ""
  }

  /** Index of the last partial result before n, or -1. */
  function LastPartial(events: seq<Event>, n: nat): (p: int)
    requires n <= |events|
    ensures -1 <= p < n
    ensures p >= 0 ==> IsPartial(events[p])
    ensures forall j | p < j < n :: !IsPartial(events[j])
  {
    if n == 0 then -1 else if IsPartial(events[n - 1]) then n - 1 else LastPartial(events, n - 1)
  }

  /** The partial result before i, if it has the same text. */
  predicate Repeats(events: seq<Event>, i: nat)
    requires i < |events|
  {
    var p := LastPartial(events, i);
    p >= 0 && events[p].text == events[i].text
  }

  /** Where the run of equal partial results that ends at i began, and how long it is. */
  function RunStart(events: seq<Event>, i: nat): (j: nat)
    requires i < |events|
    ensures j <= i
  {
    if Repeats(events, i) then RunStart(events, LastPartial(events, i)) else i
  }

  function RunLength(events: seq<Event>, i: nat): nat
    requires i < |events|
  {
    if Repeats(events, i) then 1 + RunLength(events, LastPartial(events, i)) else 1
  }

  /** The partial result at i is punctuated and has been repeated often and long enough. */
  predicate Stable(events: seq<Event>, times: seq<int>, i: nat)
    requires i < |events| == |times|
  {
    && IsPartial(events[i]) && TrimSpace(events[i].text) != ""
    && RunLength(events, i) >= REPEATS
    && times[i] - times[RunStart(events, i)] >= STABLE_FOR
    && ContainsAny(events[i].text, "。！？!?")
  }

  predicate Decides(events: seq<Event>, times: seq<int>, i: nat)
    requires i < |events| == |times|
  {
    events[i].last || Stable(events, times, i)
  }

  /** The first event that decides the transcript, or the end of the stream. */
  function Cut(events: seq<Event>, times: seq<int>, from: nat): (c: nat)
    requires from <= |events| == |times|
    ensures from <= c <= |events|
    ensures c < |events| ==> Decides(events, times, c)
    ensures forall j | from <= j < c :: !Decides(events, times, j)
    decreases |events| - from
  {
    if from == |events| || Decides(events, times, from) then from else Cut(events, times, from + 1)
  }

  /** The last text that is not blank, trimmed; empty if all are blank. */
  function LastText(events: seq<Event>, n: nat): string
    requires n <= |events|
  {
    if n == 0 then ""
    else if TrimSpace(events[n - 1].text) != "" then TrimSpace(events[n - 1].text)
    else LastText(events, n - 1)
  }

  function Decided(events: seq<Event>, c: nat): seq<Event>
    requires c < |events|
  {
    events[..c] + [Event(events[c].text, true)]
  }

  /** The events before the cut, then the final the cut event is or becomes; without a cut, the last
      text that is not blank as the final. */
  function Outcome(events: seq<Event>, times: seq<int>): seq<Event>
    requires |events| == |times|
  {
    var c := Cut(events, times, 0);
    if c < |events| then Decided(events, c)
    else events + if LastText(events, c) != "" then [Event(LastText(events, c), true)] else []
  }

  predicate SaysSomething(events: seq<Event>) {
    exists i | 0 <= i < |events| :: events[i].last || TrimSpace(events[i].text) != ""
  }

  lemma {:induction false} LastTextIsSaid(events: seq<Event>, n: nat)
    requires n <= |events|
    ensures LastText(events, n) != "" <==> exists i | 0 <= i < n :: TrimSpace(events[i].text) != ""
  {
    if n > 0 {
      LastTextIsSaid(events, n - 1);
    }
  }

  /** There is exactly one final, the last event, if the stream contains a final or any text that is
      not blank, and none otherwise. */
  lemma ExactlyOneFinal(events: seq<Event>, times: seq<int>)
    requires |events| == |times|
    ensures var out := Outcome(events, times);
      && (forall i | 0 <= i < |out| - 1 :: !out[i].last && out[i] == events[i])
      && (SaysSomething(events) ==> out != [] && out[|out| - 1].last)
      && (!SaysSomething(events) ==> out == events)
  {
    var c := Cut(events, times, 0);
    NoFinalBeforeCut(events, times);
    if c < |events| {
      CutSaysSomething(events, times);
    } else {
      UncutSaysItsLastText(events);
    }
  }

  lemma NoFinalBeforeCut(events: seq<Event>, times: seq<int>)
    requires |events| == |times|
    ensures forall i | 0 <= i < Cut(events, times, 0) :: !events[i].last
  {
    forall i | 0 <= i < Cut(events, times, 0) ensures !events[i].last {
      assert !Decides(events, times, i);
    }
  }

  lemma CutSaysSomething(events: seq<Event>, times: seq<int>)
    requires |events| == |times| && Cut(events, times, 0) < |events|
    ensures SaysSomething(events)
  {
    var c := Cut(events, times, 0);
    assert Decides(events, times, c);
    assert events[c].last || TrimSpace(events[c].text) != "";
  }

  lemma UncutSaysItsLastText(events: seq<Event>)
    requires forall i | 0 <= i < |events| :: !events[i].last
    ensures SaysSomething(events) <==> LastText(events, |events|) != ""
  {
    LastTextIsSaid(events, |events|);
  }

  // What is decided, told on the stream alone.

  predicate SaidLast(events: seq<Event>, n: nat, k: nat)
    requires n <= |events|
  {
    k < n && TrimSpace(events[k].text) != "" && forall j | k < j < n :: TrimSpace(events[j].text) == ""
  }

  lemma {:induction false} LastTextIsTheLast(events: seq<Event>, n: nat, k: nat)
    requires n <= |events| && SaidLast(events, n, k)
    ensures LastText(events, n) == TrimSpace(events[k].text)
  {
    if k < n - 1 {
      LastTextIsTheLast(events, n - 1, k);
    }
  }

  /** The final is the text of the first event that decides, as it came. */
  lemma FinalSays(events: seq<Event>, times: seq<int>, k: nat)
    requires |events| == |times| && k < |events|
    requires Decides(events, times, k) && forall j | 0 <= j < k :: !Decides(events, times, j)
    ensures Outcome(events, times) == events[..k] + [Event(events[k].text, true)]
  {
    assert Cut(events, times, 0) == k;
  }

  /** If none decides, it is the last text that is not blank, trimmed. */
  lemma LastResortSays(events: seq<Event>, times: seq<int>, k: nat)
    requires |events| == |times| && SaidLast(events, |events|, k)
    requires forall j | 0 <= j < |events| :: !Decides(events, times, j)
    ensures Outcome(events, times) == events + [Event(TrimSpace(events[k].text), true)]
  {
    LastTextIsTheLast(events, |events|, k);
    assert Cut(events, times, 0) == |events|;
  }

  function PartialsIn(events: seq<Event>, from: nat, n: nat): nat
    requires n <= |events|
  {
    if n <= from then 0 else PartialsIn(events, from, n - 1) + if IsPartial(events[n - 1]) then 1 else 0
  }

  lemma {:induction false} NoPartialsIn(events: seq<Event>, from: nat, m: nat, n: nat)
    requires m <= n <= |events| && forall k | m <= k < n :: !IsPartial(events[k])
    ensures PartialsIn(events, from, n) == PartialsIn(events, from, m)
  {
    if m < n {
      NoPartialsIn(events, from, m, n - 1);
    }
  }

  /** From j to i the recognizer has held on to one partial text, and before j, if to any, to another. */
  predicate HoldsOn(events: seq<Event>, j: nat, i: nat)
    requires j <= i < |events|
  {
    && IsPartial(events[j]) && IsPartial(events[i])
    && (forall k | j <= k <= i && IsPartial(events[k]) :: events[k].text == events[i].text)
    && !Repeats(events, j)
  }

  lemma {:induction false} RunIs(events: seq<Event>, j: nat, i: nat)
    requires j <= i < |events| && HoldsOn(events, j, i)
    ensures RunStart(events, i) == j && RunLength(events, i) == PartialsIn(events, j, i + 1)
  {
    if i == j {
      NoPartialsIn(events, j, j, j);
    } else {
      var p := LastPartial(events, i);
      assert p >= j;
      NoPartialsIn(events, j, p + 1, i);
      RunIs(events, j, p);
    }
  }

  lemma {:induction false} RunFound(events: seq<Event>, i: nat)
    requires i < |events| && IsPartial(events[i])
    ensures HoldsOn(events, RunStart(events, i), i)
  {
    if Repeats(events, i) {
      RunFound(events, LastPartial(events, i));
    }
  }

  /** A partial text is taken for final as soon as it has come at least four times in a row, over a second and
      a half or more, is not blank and holds the mark of a finished sentence. */
  lemma StableExactly(events: seq<Event>, times: seq<int>, i: nat)
    requires i < |events| == |times|
    ensures Stable(events, times, i) <==>
      && IsPartial(events[i]) && !Blank(events[i].text)
      && (exists c :: c in events[i].text && c in ['。', '！', '？', '!', '?'])
      && exists j | 0 <= j <= i ::
           HoldsOn(events, j, i) && PartialsIn(events, j, i + 1) >= 4 && times[i] - times[j] >= 1500
  {
    TrimSpaceKeeps(events[i].text);
    if IsPartial(events[i]) {
      RunFound(events, i);
      RunIs(events, RunStart(events, i), i);
      forall j | 0 <= j <= i && HoldsOn(events, j, i) ensures j == RunStart(events, i) {
        RunIs(events, j, i);
      }
    }
  }

  // The loop.

  /** The loop variables of forwardEvents that remember the run of partial results, and what was said last. */
  datatype Memory = Memory(partial: string, since: int, count: int, said: string)

  const BLANK := Memory("", 0, 0, "")

  function Heard(m: Memory, e: Event, now: int): Memory {
    var said := if TrimSpace(e.text) != "" then TrimSpace(e.text) else m.said;
    if !IsPartial(e) then m.(said := said)
    else if e.text == m.partial then m.(count := m.count + 1, said := said)
    else Memory(e.text, now, 1, said)
  }

  predicate Ends(m: Memory, e: Event, now: int) {
    e.last || (IsPartial(e) && e.text == m.partial && ShouldPromoteStablePartial(e.text, m.count + 1, m.since, now))
  }

  function MemoryAt(events: seq<Event>, times: seq<int>, n: nat): Memory
    requires n <= |events| == |times|
  {
    if n == 0 then BLANK else Heard(MemoryAt(events, times, n - 1), events[n - 1], times[n - 1])
  }

  ghost predicate Remembers(events: seq<Event>, times: seq<int>, n: nat, text: string, at: int, count: int)
    requires n <= |events| == |times|
  {
    var p := LastPartial(events, n);
    if p < 0 then text == "" && count == 0
    else text == events[p].text && at == times[RunStart(events, p)] && count == RunLength(events, p)
  }

  /** What the loop does with a partial result keeps the memory right, and decides. */
  lemma PartialRemembered(events: seq<Event>, times: seq<int>, i: nat, text: string, at: int, count: int)
    requires i < |events| == |times| && IsPartial(events[i])
    requires Remembers(events, times, i, text, at, count)
    ensures if events[i].text == text then Remembers(events, times, i + 1, text, at, count + 1)
      else Remembers(events, times, i + 1, events[i].text, times[i], 1)
    ensures Decides(events, times, i) <==>
      events[i].text == text && ShouldPromoteStablePartial(text, count + 1, at, times[i])
  {
    assert LastPartial(events, i + 1) == i;
    assert if events[i].text == text then RunLength(events, i) == count + 1 && times[RunStart(events, i)] == at
      else RunLength(events, i) == 1 && RunStart(events, i) == i;
  }

  lemma OthersLeaveMemory(events: seq<Event>, times: seq<int>, i: nat, text: string, at: int, count: int)
    requires i < |events| == |times| && !IsPartial(events[i])
    requires Remembers(events, times, i, text, at, count)
    ensures Remembers(events, times, i + 1, text, at, count)
    ensures Decides(events, times, i) <==> events[i].last
  {
    assert LastPartial(events, i + 1) == LastPartial(events, i);
  }

  ghost predicate IsRight(events: seq<Event>, times: seq<int>, n: nat, m: Memory)
    requires n <= |events| == |times|
  {
    Remembers(events, times, n, m.partial, m.since, m.count) && m.said == LastText(events, n)
  }

  lemma HeardIsRight(events: seq<Event>, times: seq<int>, i: nat, m: Memory)
    requires i < |events| == |times| && IsRight(events, times, i, m)
    ensures IsRight(events, times, i + 1, Heard(m, events[i], times[i]))
    ensures Decides(events, times, i) <==> Ends(m, events[i], times[i])
  {
    if IsPartial(events[i]) {
      PartialRemembered(events, times, i, m.partial, m.since, m.count);
    } else {
      OthersLeaveMemory(events, times, i, m.partial, m.since, m.count);
    }
  }

  /** The loop's memory says what the batch rule reads off the whole stream. */
  lemma {:induction false} MemoryIsRight(events: seq<Event>, times: seq<int>, n: nat)
    requires n <= |events| == |times|
    ensures IsRight(events, times, n, MemoryAt(events, times, n))
  {
    if n > 0 {
      MemoryIsRight(events, times, n - 1);
      HeardIsRight(events, times, n - 1, MemoryAt(events, times, n - 1));
    }
  }

  predicate EndsAt(events: seq<Event>, times: seq<int>, i: nat)
    requires i < |events| == |times|
  {
    Ends(MemoryAt(events, times, i), events[i], times[i])
  }

  lemma EndsAtCut(events: seq<Event>, times: seq<int>, i: nat)
    requires i < |events| == |times| && i <= Cut(events, times, 0)
    ensures Cut(events, times, 0) == i <==> EndsAt(events, times, i)
  {
    MemoryIsRight(events, times, i);
    HeardIsRight(events, times, i, MemoryAt(events, times, i));
    CutAt(events, times, i);
  }

  /** What has been emitted before event i, if the cut is at c. */
  function EmittedAt(events: seq<Event>, c: nat, i: nat): seq<Event>
    requires c <= |events| && i <= |events|
  {
    if i <= c then events[..i] else Decided(events, c)
  }

  lemma EmittedNext(events: seq<Event>, c: nat, i: nat)
    requires c <= |events| && i < |events|
    ensures EmittedAt(events, c, i + 1) == EmittedAt(events, c, i) +
      if i < c then [events[i]] else if i == c then [Event(events[i].text, true)] else []
  {
    if i < c {
      assert events[..i + 1] == events[..i] + [events[i]];
    }
  }

  /** The outcome, in terms of the loop's memory. */
  lemma CutByMemory(events: seq<Event>, times: seq<int>) returns (c: nat)
    requires |events| == |times|
    ensures c == Cut(events, times, 0) <= |events|
    ensures Outcome(events, times) == EmittedAt(events, c, |events|) +
      if c == |events| && MemoryAt(events, times, c).said != "" then [Event(MemoryAt(events, times, c).said, true)]
      else []
  {
    c := Cut(events, times, 0);
    MemoryIsRight(events, times, |events|);
    assert events[..|events|] == events;
  }

  lemma CutAt(events: seq<Event>, times: seq<int>, i: nat)
    requires i < |events| == |times| && i <= Cut(events, times, 0)
    ensures Cut(events, times, 0) == i <==> Decides(events, times, i)
  {
  }

  /** `ends` counts the calls of HandleEndOfUtterance. */
  method ForwardEvents(events: seq<Event>, times: seq<int>) returns (emitted: seq<Event>, ends: nat)
    requires |events| == |times|
    ensures emitted == Outcome(events, times)
    ensures ends == if Cut(events, times, 0) < |events| then 1 else 0
  {
    var lastPartialText, lastPartialAt, repeatCount := "", 0, 0;
    var stablePromoted, sawFinal := false, false;
    var lastNonEmptyText := "";
    ghost var c := CutByMemory(events, times);
    emitted, ends := [], 0;
    for i := 0 to |events|
      invariant stablePromoted <==> i > c
      invariant sawFinal ==> stablePromoted
      invariant emitted == EmittedAt(events, c, i) && ends == if stablePromoted then 1 else 0
      invariant !stablePromoted ==>
        MemoryAt(events, times, i) == Memory(lastPartialText, lastPartialAt, repeatCount, lastNonEmptyText)
    {
      EmittedNext(events, c, i);
      if stablePromoted {
        assert emitted + [] == emitted;
        continue;
      }
      var event := events[i];
      EndsAtCut(events, times, i);
      var text := TrimSpace(event.text);
      if text != "" {
        lastNonEmptyText := text;
      }
      if !event.last && event.text != "" {
        var now := times[i];
        if event.text == lastPartialText {
          repeatCount := repeatCount + 1;
          if ShouldPromoteStablePartial(event.text, repeatCount, lastPartialAt, now) {
            emitted := emitted + [Event(event.text, true)];
            ends := ends + 1;
            stablePromoted := true;
            continue;
          }
        } else {
          lastPartialText, lastPartialAt, repeatCount := event.text, now, 1;
        }
      }
      emitted := emitted + [event];
      if event.last {
        assert event == Event(event.text, true);
        sawFinal := true;
        ends := ends + 1;
        stablePromoted := true;
      }
    }
    if !stablePromoted && !sawFinal && lastNonEmptyText != "" {
      emitted := emitted + [Event(lastNonEmptyText, true)];
    } else {
      assert emitted + [] == emitted;
    }
  }
}
