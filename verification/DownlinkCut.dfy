/** What can still be heard of a reply that was cut. After a barge-in cancelCurrent flushes the downlink, but
    the cancelled run goes on reading its synthesis events and calling WritePCM16K
    (internal/app/bot/response_runtime.go), and Flush only speaks of frames enqueued before it. */
module DownlinkCut {
  import opened DownlinkWriter
  import Runs

  /** Frame f was reserved by call i of WritePCM16K. */
  predicate Of(s: Sys, f: nat, i: nat) {
    f < |s.owners| && s.owners[f] == i
  }

  predicate Unfinished(p: Producer) {
    p.Offering? || (p.Marking? && p.left > 0)
  }

  /** The writer will drain the queue before it writes again. */
  predicate Drains(w: Writer) {
    w.FlushPaced? || w.Draining?
  }

  predicate InHandOf(s: Sys, i: nat) {
    s.writer.Writing? && Of(s, s.writer.frame, i)
  }

  predicate QueuedOf(s: Sys, i: nat) {
    !Drains(s.writer) && exists f :: f in s.queue && Of(s, f, i)
  }

  /** A frame of call i can still be written: the writer is not over, and the call is still to come or not
      finished, or a frame of it is in the writer's hand, or queued and not about to be drained. */
  predicate CanSound(s: Sys, i: nat) {
    && !Over(s.writer)
    && (i >= |s.producers| || Unfinished(s.producers[i]) || InHandOf(s, i) || QueuedOf(s, i))
  }

  /** In run', which goes on from run, a frame of call i is written. */
  ghost predicate Sounds(run: seq<Sys>, run': seq<Sys>, i: nat) {
    && Runs.Continues(run, run', Init, Next)
    && var before, s := |Runs.Last(run).writes|, Runs.Last(run');
       exists w :: before <= w < |s.writes| && Of(s, s.writes[w], i)
  }

  // Nothing else is heard.

  /** A frame on offer belongs to the call that offers it. */
  ghost predicate OffersOwn(s: Sys) {
    && (forall p | 0 <= p < |s.producers| && s.producers[p].Offering? :: Of(s, s.producers[p].frame, p))
    && (forall k | 0 <= k < |s.enqueued| :: s.enqueued[k] < |s.owners|)
  }

  lemma ProducerOffersOwn(s: Sys, i: nat, s': Sys)
    requires i < |s.producers| && OffersOwn(s) && ProducerStep(s, i, s')
    ensures OffersOwn(s')
  {
  }

  lemma OthersOfferOwn(s: Sys, s': Sys)
    requires OffersOwn(s) && s'.producers == s.producers && s'.owners == s.owners && s'.enqueued == s.enqueued
    ensures OffersOwn(s')
  {
  }

  lemma WriterFrame(s: Sys, s': Sys)
    requires WriterStep(s, s')
    ensures s'.producers == s.producers && s'.owners == s.owners && s'.enqueued == s.enqueued
  {
  }

  lemma FlusherFrame(s: Sys, i: nat, s': Sys)
    requires i < |s.flushers| && FlusherStep(s, i, s')
    ensures s'.producers == s.producers && s'.owners == s.owners && s'.enqueued == s.enqueued
    ensures s'.queue == s.queue && s'.writes == s.writes
    ensures s'.writer == s.writer || (Drains(s'.writer) && !Over(s.writer) && !s.writer.Writing?)
  {
  }

  lemma NextOffersOwn(s: Sys, s': Sys)
    requires OffersOwn(s) && Next(s, s')
    ensures OffersOwn(s')
  {
    if WriterStep(s, s') {
      WriterFrame(s, s');
      OthersOfferOwn(s, s');
    } else if i: nat :| i < |s.producers| && ProducerStep(s, i, s') {
      ProducerOffersOwn(s, i, s');
    } else if i: nat :| i < |s.flushers| && FlusherStep(s, i, s') {
      FlusherFrame(s, i, s');
      OthersOfferOwn(s, s');
    }
  }

  /** The frames that are queued, in hand or written have been reserved. */
  ghost predicate Known(s: Sys) {
    && (forall f | f in s.queue :: f < |s.owners|)
    && (s.writer.Writing? ==> s.writer.frame < |s.owners|)
    && (forall w | 0 <= w < |s.writes| :: s.writes[w] < |s.owners|)
  }

  lemma WriterKnown(s: Sys, s': Sys)
    requires Known(s) && WriterStep(s, s')
    ensures Known(s')
  {
    WriterFrame(s, s');
    QueueShrinks(s, s');
  }

  lemma ProducerKnown(s: Sys, p: nat, s': Sys)
    requires OffersOwn(s) && Known(s) && p < |s.producers| && ProducerStep(s, p, s')
    ensures Known(s')
  {
    ProducerFrame(s, p, s');
  }

  ghost predicate Owned(s: Sys) {
    OffersOwn(s) && Known(s)
  }

  lemma NextOwned(s: Sys, s': Sys)
    requires Owned(s) && Next(s, s')
    ensures Owned(s')
  {
    NextOffersOwn(s, s');
    if WriterStep(s, s') {
      WriterKnown(s, s');
    } else if i: nat :| i < |s.producers| && ProducerStep(s, i, s') {
      ProducerKnown(s, i, s');
    } else if i: nat :| i < |s.flushers| && FlusherStep(s, i, s') {
      FlusherFrame(s, i, s');
    }
  }

  lemma RunOwned(run: seq<Sys>, i: nat)
    requires IsRun(run) && i < |run|
    ensures Owned(run[i])
  {
    forall s, s' | Owned(s) && Next(s, s') ensures Owned(s') {
      NextOwned(s, s');
    }
    Runs.Invariant(run, i, Init, Next, Owned);
  }

  /** Nothing of call i has been written since the first n writes, and nothing can be. */
  ghost predicate Silent(s: Sys, i: nat, n: nat) {
    && !CanSound(s, i)
    && n <= |s.writes| && forall w | n <= w < |s.writes| :: !Of(s, s.writes[w], i)
  }

  lemma QueueShrinks(s: Sys, s': Sys)
    requires WriterStep(s, s')
    ensures forall f | f in s'.queue :: f in s.queue
    ensures s'.writer.Writing? ==> s'.writer.frame in s.queue && s.writer == Selecting
    ensures !Drains(s'.writer) && Drains(s.writer) ==> s'.queue == []
    ensures Over(s.writer) ==> Over(s'.writer)
    ensures s'.writes == s.writes || (s.writer.Writing? && s'.writes == s.writes + [s.writer.frame])
  {
  }

  lemma WriterStaysSilent(s: Sys, s': Sys, i: nat, n: nat)
    requires WriterStep(s, s') && Silent(s, i, n)
    ensures Silent(s', i, n)
  {
    WriterFrame(s, s');
    QueueShrinks(s, s');
  }

  lemma ProducerFrame(s: Sys, p: nat, s': Sys)
    requires OffersOwn(s) && p < |s.producers| && ProducerStep(s, p, s')
    ensures s'.writer == s.writer && s'.writes == s.writes && |s'.producers| == |s.producers|
    ensures s.owners <= s'.owners
    ensures forall f | f in s'.queue :: f in s.queue || (Of(s, f, p) && Unfinished(s.producers[p]))
    ensures forall j | 0 <= j < |s.producers| && Unfinished(s'.producers[j]) :: Unfinished(s.producers[j])
  {
  }

  lemma ProducerStaysSilent(s: Sys, p: nat, s': Sys, i: nat, n: nat)
    requires OffersOwn(s) && Known(s) && p < |s.producers| && ProducerStep(s, p, s') && Silent(s, i, n)
    ensures Silent(s', i, n)
  {
    ProducerFrame(s, p, s');
    assert forall f: nat | f < |s.owners| :: Of(s', f, i) <==> Of(s, f, i);
  }

  lemma FlusherStaysSilent(s: Sys, k: nat, s': Sys, i: nat, n: nat)
    requires k < |s.flushers| && FlusherStep(s, k, s') && Silent(s, i, n)
    ensures Silent(s', i, n)
  {
    FlusherFrame(s, k, s');
  }

  lemma CallStaysSilent(s: Sys, s': Sys, i: nat, n: nat)
    requires CallStep(s, s') && Silent(s, i, n)
    ensures Silent(s', i, n)
  {
  }

  lemma NextStaysSilent(s: Sys, s': Sys, i: nat, n: nat)
    requires Owned(s) && Next(s, s') && Silent(s, i, n)
    ensures Silent(s', i, n)
  {
    if WriterStep(s, s') {
      WriterStaysSilent(s, s', i, n);
    } else if p: nat :| p < |s.producers| && ProducerStep(s, p, s') {
      ProducerStaysSilent(s, p, s', i, n);
    } else if k: nat :| k < |s.flushers| && FlusherStep(s, k, s') {
      FlusherStaysSilent(s, k, s', i, n);
    } else if CallStep(s, s') {
      CallStaysSilent(s, s', i, n);
    }
  }

  lemma StaysSilent(run: seq<Sys>, j: nat, k: nat, i: nat, n: nat)
    requires IsRun(run) && j <= k < |run| && Silent(run[j], i, n)
    ensures Silent(run[k], i, n)
  {
    forall x | 0 <= x < |run| ensures Owned(run[x]) {
      RunOwned(run, x);
    }
    var silent := s => Silent(s, i, n);
    forall s, s' | Owned(s) && silent(s) && Next(s, s') ensures silent(s') {
      NextStaysSilent(s, s', i, n);
    }
    Runs.Stable(run, j, k, Init, Next, Owned, silent);
  }

  lemma OnlyTheseSound(run: seq<Sys>, run': seq<Sys>, i: nat)
    requires Sounds(run, run', i)
    ensures CanSound(Runs.Last(run), i)
  {
    var s := Runs.Last(run);
    if !CanSound(s, i) {
      assert run'[|run| - 1] == s;
      StaysSilent(run', |run| - 1, |run'| - 1, i, |s.writes|);
    }
  }

  // All this can be heard.

  /** run' goes on from run, with the calls and the frames they reserved as they were. */
  ghost predicate Goes(run: seq<Sys>, run': seq<Sys>) {
    && Runs.Continues(run, run', Init, Next)
    && Runs.Last(run').producers == Runs.Last(run).producers
    && Runs.Last(run').owners == Runs.Last(run).owners
  }

  lemma SoundsOn(run: seq<Sys>, run1: seq<Sys>, run': seq<Sys>, i: nat)
    requires IsRun(run) && Runs.Continues(run, run1, Init, Next) && Sounds(run1, run', i)
    ensures Sounds(run, run', i)
  {
    RunGrows(run1, |run| - 1, |run1| - 1);
    assert run1[|run| - 1] == Runs.Last(run);
  }

  lemma WriterGoes(run: seq<Sys>, s: Sys) returns (run': seq<Sys>)
    requires IsRun(run) && WriterStep(Runs.Last(run), s)
    ensures Goes(run, run') && Runs.Last(run') == s
  {
    WriterFrame(Runs.Last(run), s);
    run' := Runs.Go(run, s, Init, Next);
  }

  /** The writer writes the frame in its hand. */
  lemma SoundInHand(run: seq<Sys>, i: nat) returns (run': seq<Sys>)
    requires IsRun(run) && InHandOf(Runs.Last(run), i)
    ensures Sounds(run, run', i)
  {
    var s := Runs.Last(run);
    run' := WriterGoes(run, s.(writer := Pacing, fates := s.fates + [Written], writes := s.writes + [s.writer.frame]));
    assert Of(Runs.Last(run'), Runs.Last(run').writes[|s.writes|], i);
  }

  lemma AfterPacing(run: seq<Sys>) returns (run': seq<Sys>)
    requires IsRun(run) && Runs.Last(run).writer in {Failed, Pacing, Timed}
    ensures Goes(run, run') && Runs.Last(run').writer == Selecting && Runs.Last(run').queue == Runs.Last(run).queue
  {
    var s := Runs.Last(run);
    run' := run;
    if s.writer == Pacing {
      run' := WriterGoes(run, s.(writer := Timed));
      s := Runs.Last(run');
    }
    run' := WriterGoes(run', s.(writer := Selecting, account := Done(s.account, 1)));
  }

  lemma AfterDraining(run: seq<Sys>) returns (run': seq<Sys>)
    requires IsRun(run) && (Runs.Last(run).writer.Drained? || Runs.Last(run).writer.Acking?)
    ensures Goes(run, run') && Runs.Last(run').writer == Selecting && Runs.Last(run').queue == Runs.Last(run).queue
  {
    RunSound(run, |run| - 1);
    var s, a := Runs.Last(run), Runs.Last(run).writer.ack;
    run' := run;
    if s.writer.Drained? {
      run' := WriterGoes(run, s.(writer := Acking(a), account := Done(s.account, s.writer.drained)));
      s := Runs.Last(run');
    }
    run' := WriterGoes(run', s.(writer := Selecting, flushers := s.flushers[a := Acked(s.flushers[a].mark)]));
  }

  lemma Drain(run: seq<Sys>) returns (run': seq<Sys>)
    requires IsRun(run) && Runs.Last(run).writer.Draining?
    ensures Goes(run, run') && Runs.Last(run').writer == Selecting && Runs.Last(run').queue == []
    decreases |Runs.Last(run).queue|
  {
    var s := Runs.Last(run);
    var Draining(a, d) := s.writer;
    if s.queue != [] {
      run' := WriterGoes(run, s.(writer := Draining(a, d + 1), queue := s.queue[1..], fates := s.fates + [Flushed]));
      run' := Drain(run');
    } else {
      run' := WriterGoes(run, s.(writer := if d > 0 then Drained(a, d) else Acking(a)));
      run' := AfterDraining(run');
    }
  }

  /** The writer comes back to its choice, with the queue as it was unless it drains it. */
  lemma ComeBack(run: seq<Sys>) returns (run': seq<Sys>)
    requires IsRun(run) && !Over(Runs.Last(run).writer)
    ensures Goes(run, run') && Runs.Last(run').writer == Selecting
    ensures Runs.Last(run').queue == if Drains(Runs.Last(run).writer) then [] else Runs.Last(run).queue
  {
    var s := Runs.Last(run);
    run' := run;
    match s.writer {
      case Selecting =>
      case Writing(f) =>
        run' := WriterGoes(run, s.(writer := Failed, fates := s.fates + [WriteFailed]));
        run' := AfterPacing(run');
      case FlushPaced(a) =>
        run' := WriterGoes(run, s.(writer := Draining(a, 0), account := Done(s.account, 1)));
        run' := Drain(run');
      case Draining(_, _) => run' := Drain(run);
      case Drained(_, _) => run' := AfterDraining(run);
      case Acking(_) => run' := AfterDraining(run);
      case _ => run' := AfterPacing(run);
    }
  }

  /** The frame at place q of the queue is written, after those before it. */
  lemma SoundQueued(run: seq<Sys>, q: nat, i: nat) returns (run': seq<Sys>)
    requires IsRun(run) && Runs.Last(run).writer == Selecting
    requires q < |Runs.Last(run).queue| && Of(Runs.Last(run), Runs.Last(run).queue[q], i)
    ensures Sounds(run, run', i)
    decreases q
  {
    var s := Runs.Last(run);
    var run1 := WriterGoes(run, s.(writer := Writing(s.queue[0]), queue := s.queue[1..]));
    if q == 0 {
      run' := SoundInHand(run1, i);
    } else {
      run1 := ComeBack(run1);
      run' := SoundQueued(run1, q - 1, i);
    }
    SoundsOn(run, run1, run', i);
  }

  lemma MakeRoom(run: seq<Sys>) returns (run': seq<Sys>)
    requires IsRun(run) && Runs.Last(run).writer == Selecting
    ensures Goes(run, run') && Runs.Last(run').writer == Selecting && Runs.Last(run').queue == []
    decreases |Runs.Last(run).queue|
  {
    var s := Runs.Last(run);
    run' := run;
    if s.queue != [] {
      run' := WriterGoes(run, s.(writer := Writing(s.queue[0]), queue := s.queue[1..]));
      run' := ComeBack(run');
      run' := MakeRoom(run');
    }
  }

  lemma SoundOffered(run: seq<Sys>, i: nat) returns (run': seq<Sys>)
    requires IsRun(run) && !Over(Runs.Last(run).writer)
    requires i < |Runs.Last(run).producers| && Runs.Last(run).producers[i].Offering?
    ensures Sounds(run, run', i)
  {
    var run1 := ComeBack(run);
    run1 := MakeRoom(run1);
    RunOwned(run1, |run1| - 1);
    var s := Runs.Last(run1);
    var Offering(f, left) := s.producers[i];
    var s' := s.(producers := s.producers[i := Marking(left)], queue := [f], enqueued := s.enqueued + [f]);
    assert s.queue + [f] == [f];
    assert ProducerStep(s, i, s');
    run1 := Runs.Go(run1, s', Init, Next);
    run' := SoundQueued(run1, 0, i);
    SoundsOn(run, run1, run', i);
  }

  lemma SoundUnfinished(run: seq<Sys>, i: nat) returns (run': seq<Sys>)
    requires IsRun(run) && !Over(Runs.Last(run).writer)
    requires i < |Runs.Last(run).producers| && Unfinished(Runs.Last(run).producers[i])
    ensures Sounds(run, run', i)
  {
    var s, run1 := Runs.Last(run), run;
    if s.producers[i].Marking? {
      var s' := s.(producers := s.producers[i := Offering(|s.owners|, s.producers[i].left - 1)],
                   account := Queued(s.account, 1), owners := s.owners + [i]);
      assert ProducerStep(s, i, s');
      run1 := Runs.Go(run, s', Init, Next);
    }
    run' := SoundOffered(run1, i);
    SoundsOn(run, run1, run', i);
  }

  lemma SoundToCome(run: seq<Sys>, i: nat) returns (run': seq<Sys>)
    requires IsRun(run) && !Over(Runs.Last(run).writer) && i >= |Runs.Last(run).producers|
    ensures Sounds(run, run', i)
    decreases i - |Runs.Last(run).producers|
  {
    var s := Runs.Last(run);
    var n: nat := 1;
    var s' := s.(producers := s.producers + [Marking(n)]);
    assert CallStep(s, s');
    var run1 := Runs.Go(run, s', Init, Next);
    if i == |s.producers| {
      run' := SoundUnfinished(run1, i);
    } else {
      run' := SoundToCome(run1, i);
    }
    SoundsOn(run, run1, run', i);
  }

  lemma Sound(run: seq<Sys>, i: nat) returns (run': seq<Sys>)
    requires IsRun(run) && CanSound(Runs.Last(run), i)
    ensures Sounds(run, run', i)
  {
    var s := Runs.Last(run);
    if i >= |s.producers| {
      run' := SoundToCome(run, i);
    } else if Unfinished(s.producers[i]) {
      run' := SoundUnfinished(run, i);
    } else if InHandOf(s, i) {
      run' := SoundInHand(run, i);
    } else {
      var f :| f in s.queue && Of(s, f, i);
      var q :| 0 <= q < |s.queue| && s.queue[q] == f;
      var run1 := ComeBack(run);
      run' := SoundQueued(run1, q, i);
      SoundsOn(run, run1, run', i);
    }
  }

  /** From every reachable state: a frame of a call can be written after it exactly if the writer is not over
      and the call is still to come, or has frames left to enqueue, or one of its frames is in the writer's
      hand, or queued and not about to be drained. */
  lemma SoundsExactly(run: seq<Sys>, i: nat)
    requires IsRun(run)
    ensures (exists run' :: Sounds(run, run', i)) <==> CanSound(Runs.Last(run), i)
  {
    if run' :| Sounds(run, run', i) {
      OnlyTheseSound(run, run', i);
    }
    if CanSound(Runs.Last(run), i) {
      var run' := Sound(run, i);
    }
  }

  // After a flush.

  /** The frame at place p of the order of enqueueing is in the writer's hand, or queued and not about to be
      drained. */
  predicate Waits(s: Sys, p: nat)
    requires p < |s.enqueued|
  {
    |s.fates| <= p && (p < |s.enqueued| - |s.queue| || !Drains(s.writer))
  }

  lemma WaitsExactly(s: Sys, i: nat)
    requires Ordered(s)
    ensures InHandOf(s, i) || QueuedOf(s, i)
      <==> exists p :: 0 <= p < |s.enqueued| && Waits(s, p) && Of(s, s.enqueued[p], i)
  {
    var n := |s.enqueued| - |s.queue|;
    assert forall q | 0 <= q < |s.queue| :: s.queue[q] == s.enqueued[n + q];
    if InHandOf(s, i) {
      assert Waits(s, |s.fates|) && Of(s, s.enqueued[|s.fates|], i);
    }
    if QueuedOf(s, i) {
      var f :| f in s.queue && Of(s, f, i);
      var q :| 0 <= q < |s.queue| && s.queue[q] == f;
      assert Waits(s, n + q) && Of(s, s.enqueued[n + q], i);
    }
    if p :| 0 <= p < |s.enqueued| && Waits(s, p) && Of(s, s.enqueued[p], i) {
      if p >= n {
        assert s.queue[p - n] == s.enqueued[p];
      }
    }
  }

  /** When a flush has returned, what can still be heard of a call: nothing that was enqueued before the flush
      was called; but a frame that was enqueued since and waits, or any frame that is still to come, exactly
      unless the writer is over. So a cancelled run is silent exactly if this holds of none of its calls. */
  lemma HeardAfterFlushExactly(run: seq<Sys>, j: nat, flusher: nat, i: nat)
    requires IsRun(run) && j < |run| && |run[j].flushers| <= flusher < |Runs.Last(run).flushers|
    requires Runs.Last(run).flushers[flusher].Returned?
    ensures var s := Runs.Last(run);
      (exists run' :: Sounds(run, run', i)) <==>
      && !Over(s.writer)
      && (|| i >= |s.producers| || Unfinished(s.producers[i])
          || exists p :: |run[j].enqueued| <= p < |s.enqueued| && Waits(s, p) && Of(s, s.enqueued[p], i))
  {
    var s, n := Runs.Last(run), |run| - 1;
    SoundsExactly(run, i);
    RunSound(run, n);
    MarkedAtCall(run, j, n, flusher);
    assert FlusherSound(s, s.flushers[flusher]);
    WaitsExactly(s, i);
  }

  /** Call 0 has two frames. The first is flushed, and the flush has returned. */
  const FLUSHED := Sys([], false, Account(0, 1, {0, 1}), Selecting, [Marking(1)], [Returned(1)], [], [0], 0,
                       [0], [Flushed], [])

  lemma ReachQueued() returns (run: seq<Sys>)
    ensures IsRun(run)
    ensures Runs.Last(run) == START.(queue := [0], account := Account(1, 1, {0}), producers := [Marking(1)],
                                     owners := [0], enqueued := [0])
  {
    var n: nat := 2;
    var s1 := START.(producers := [Marking(n)]);
    var s2 := s1.(account := Account(1, 1, {0}), producers := [Offering(0, 1)], owners := [0]);
    var s3 := s2.(queue := [0], producers := [Marking(1)], enqueued := [0]);
    assert CallStep(START, s1) && ProducerStep(s1, 0, s2) && ProducerStep(s2, 0, s3);
    Runs.Begin(START, Init, Next);
    run := Runs.Go([START], s1, Init, Next);
    run := Runs.Go(run, s2, Init, Next);
    run := Runs.Go(run, s3, Init, Next);
  }

  lemma ReachDraining() returns (run: seq<Sys>, called: nat)
    ensures IsRun(run)
    ensures Runs.Last(run) == START.(
      queue := [0], account := Account(1, 1, {0}), producers := [Marking(1)], owners := [0], enqueued := [0],
      flushers := [Waiting(1)], writer := Draining(0, 0))
    ensures called < |run| && run[called].flushers == [] && run[called].producers == [Marking(1)]
  {
    run := ReachQueued();
    called := |run| - 1;
    var s := Runs.Last(run);
    var s1 := s.(flushers := [Calling(1)]);
    var s2 := s.(flushers := [Waiting(1)], writer := Draining(0, 0));
    assert CallStep(s, s1) && FlusherStep(s1, 0, s2);
    run := Runs.Go(run, s1, Init, Next);
    run := Runs.Go(run, s2, Init, Next);
  }

  lemma ReachDrained() returns (run: seq<Sys>, called: nat)
    ensures IsRun(run)
    ensures Runs.Last(run) == FLUSHED.(account := Account(1, 1, {0}), writer := Drained(0, 1), flushers := [Waiting(1)])
    ensures called < |run| && run[called].flushers == [] && run[called].producers == [Marking(1)]
  {
    run, called := ReachDraining();
    var s := Runs.Last(run).(writer := Draining(0, 1), queue := [], fates := [Flushed]);
    run := WriterGoes(run, s);
    run := WriterGoes(run, s.(writer := Drained(0, 1)));
  }

  lemma ReachFlushed() returns (run: seq<Sys>, called: nat)
    ensures IsRun(run) && Runs.Last(run) == FLUSHED
    ensures called < |run| && run[called].flushers == [] && run[called].producers == [Marking(1)]
  {
    run, called := ReachDrained();
    var s1 := FLUSHED.(writer := Acking(0), flushers := [Waiting(1)]);
    var s2 := FLUSHED.(flushers := [Acked(1)]);
    assert WriterStep(Runs.Last(run), s1) && WriterStep(s1, s2) && FlusherStep(s2, 0, FLUSHED);
    run := Runs.Go(run, s1, Init, Next);
    run := Runs.Go(run, s2, Init, Next);
    run := Runs.Go(run, FLUSHED, Init, Next);
  }

  /** A run in which a call that began before a flush is heard after the flush has returned. */
  lemma CutReplyIsHeard() returns (run: seq<Sys>, called: nat, run': seq<Sys>)
    ensures IsRun(run) && called < |run| && run[called].flushers == [] && run[called].producers == [Marking(1)]
    ensures Runs.Last(run).flushers == [Returned(1)] && Sounds(run, run', 0)
  {
    run, called := ReachFlushed();
    run' := Sound(run, 0);
  }
}
