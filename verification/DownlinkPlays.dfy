/** What the downlink does to its frames when it is left to play them, when it is flushed and when it is closed
    (internal/app/bot/downlink_audio.go): every outcome can be reached, and only what asks for it leads to it. */
module DownlinkPlays {
  import opened DownlinkWriter
  import Runs

  // Only a flush drops frames, only a close refuses them and sends anybody away.

  ghost predicate Loyal(s: Sys) {
    && (s.flushers == [] ==> Flushed !in s.fates && AwaitsNoAck(s.writer))
    && (!s.closed ==>
          && s.refused == 0 && !Over(s.writer)
          && (forall p | 0 <= p < |s.producers| :: !s.producers[p].Rejected?)
          && (forall w | 0 <= w < |s.waiters| :: s.waiters[w] != Left(false)))
  }

  predicate AwaitsNoAck(w: Writer) {
    !w.FlushPaced? && !w.Draining? && !w.Drained? && !w.Acking?
  }

  lemma WriterStaysLoyal(s: Sys, s': Sys)
    requires Loyal(s) && WriterStep(s, s')
    ensures Loyal(s')
  {
  }

  lemma ProducerStaysLoyal(s: Sys, i: nat, s': Sys)
    requires i < |s.producers| && Loyal(s) && ProducerStep(s, i, s')
    ensures Loyal(s')
  {
  }

  lemma FlusherStaysLoyal(s: Sys, i: nat, s': Sys)
    requires i < |s.flushers| && Loyal(s) && FlusherStep(s, i, s')
    ensures Loyal(s')
  {
  }

  lemma WaiterStaysLoyal(s: Sys, i: nat, s': Sys)
    requires i < |s.waiters| && Loyal(s) && WaiterStep(s, i, s')
    ensures Loyal(s')
  {
  }

  lemma StepStaysLoyal(s: Sys, s': Sys)
    requires Loyal(s) && Next(s, s')
    ensures Loyal(s')
  {
    if WriterStep(s, s') {
      WriterStaysLoyal(s, s');
    } else if i: nat :| i < |s.producers| && ProducerStep(s, i, s') {
      ProducerStaysLoyal(s, i, s');
    } else if i: nat :| i < |s.flushers| && FlusherStep(s, i, s') {
      FlusherStaysLoyal(s, i, s');
    } else if i: nat :| i < |s.waiters| && WaiterStep(s, i, s') {
      WaiterStaysLoyal(s, i, s');
    }
  }

  lemma RunLoyal(run: seq<Sys>, i: nat)
    requires IsRun(run) && i < |run|
    ensures Loyal(run[i])
  {
    forall s, s' | Loyal(s) && Next(s, s') ensures Loyal(s') {
      StepStaysLoyal(s, s');
    }
    Runs.Invariant(run, i, Init, Next, Loyal);
  }

  /** As long as nobody has called Close, no frame is refused, the writer is there, and nobody leaves WaitIdle but
      through the idle channel; as long as nobody has called Flush either, every frame taken off the queue is
      written, unless writing it fails. */
  lemma NothingIsDropped(run: seq<Sys>, i: nat)
    requires IsRun(run) && i < |run|
    ensures var s := run[i];
      && (!s.closed ==> s.refused == 0 && !s.writer.Leaving? && !s.writer.Stopped?)
      && (forall w | 0 <= w < |s.waiters| && s.waiters[w].Left? && !s.closed :: s.waiters[w].throughIdle)
      && (forall k | 0 <= k < |s.fates| && s.flushers == [] :: s.fates[k] == Written || s.fates[k] == WriteFailed)
  {
    RunLoyal(run, i);
  }

  // A reply is played.

  /** The n frames that are reserved next. */
  function NextFrames(s: Sys, n: nat): seq<nat> {
    seq(n, k => |s.owners| + k)
  }

  function Enqueued(s: Sys, p: nat, n: nat): Sys
    requires p < |s.producers|
  {
    var frames := NextFrames(s, n);
    s.(producers := s.producers[p := Marking(0)], account := Queued(s.account, n), owners := s.owners + seq(n, k => p),
       queue := s.queue + frames, enqueued := s.enqueued + frames)
  }

  lemma EnqueuedFirst(s: Sys, p: nat, n: nat)
    requires p < |s.producers| && n > 0 && s.account.pending >= 0
    ensures var one := Enqueued(s, p, 1); Enqueued(s, p, n) == Enqueued(one, p, n - 1)
  {
    var one := Enqueued(s, p, 1);
    assert NextFrames(s, n) == NextFrames(s, 1) + NextFrames(one, n - 1);
    assert seq(n, k => p) == seq(1, k => p) + seq(n - 1, k => p);
    assert s.queue + NextFrames(s, n) == one.queue + NextFrames(one, n - 1);
    assert s.enqueued + NextFrames(s, n) == one.enqueued + NextFrames(one, n - 1);
    assert s.owners + seq(n, k => p) == one.owners + seq(n - 1, k => p);
  }

  /** One frame is reserved and put on the queue. */
  lemma EnqueueOne(run: seq<Sys>, p: nat) returns (run': seq<Sys>)
    requires IsRun(run)
    requires var s := Runs.Last(run);
      p < |s.producers| && s.producers[p].Marking? && s.producers[p].left > 0 && |s.queue| < 512
    ensures Runs.Continues(run, run', Init, Next)
    ensures var s := Runs.Last(run);
      Runs.Last(run') == Enqueued(s, p, 1).(producers := s.producers[p := Marking(s.producers[p].left - 1)])
  {
    var s := Runs.Last(run);
    var n, f := s.producers[p].left, |s.owners|;
    var s1 := s.(producers := s.producers[p := Offering(f, n - 1)], account := Queued(s.account, 1),
                 owners := s.owners + [p]);
    assert ProducerStep(s, p, s1);
    run' := Runs.Go(run, s1, Init, Next);
    var s2 := s1.(producers := s1.producers[p := Marking(n - 1)], queue := s1.queue + [f],
                  enqueued := s1.enqueued + [f]);
    assert ProducerStep(s1, p, s2);
    run' := Runs.Go(run', s2, Init, Next);
    assert NextFrames(s, 1) == [f] && seq(1, k => p) == [p];
  }

  /** All frames of a call are put on the queue if there is room for them. */
  lemma EnqueueAll(run: seq<Sys>, p: nat) returns (run': seq<Sys>)
    requires IsRun(run)
    requires var s := Runs.Last(run);
      p < |s.producers| && s.producers[p].Marking? && |s.queue| + s.producers[p].left <= 512
    ensures Runs.Continues(run, run', Init, Next)
    ensures Runs.Last(run') == Enqueued(Runs.Last(run), p, Runs.Last(run).producers[p].left)
    decreases Runs.Last(run).producers[p].left
  {
    var s := Runs.Last(run);
    var n := s.producers[p].left;
    RunAccounted(run, |run| - 1);
    if n == 0 {
      run' := run;
      assert Enqueued(s, p, 0) == s;
    } else {
      run' := EnqueueOne(run, p);
      var s' := Runs.Last(run');
      assert Enqueued(s', p, n - 1) == Enqueued(Enqueued(s, p, 1), p, n - 1);
      run' := EnqueueAll(run', p);
      EnqueuedFirst(s, p, n);
    }
  }

  function Played(s: Sys): Sys {
    s.(queue := [], fates := s.fates + seq(|s.queue|, k => Written), writes := s.writes + s.queue,
       account := Done(s.account, |s.queue|))
  }

  function PlayedOne(s: Sys): Sys
    requires s.queue != []
  {
    s.(queue := s.queue[1..], fates := s.fates + [Written], writes := s.writes + [s.queue[0]],
       account := Done(s.account, 1))
  }

  lemma PlayedFirst(s: Sys)
    requires s.queue != [] && s.account.pending >= |s.queue|
    ensures Played(s) == Played(PlayedOne(s))
  {
    var one := PlayedOne(s);
    assert s.fates + seq(|s.queue|, k => Written) == one.fates + seq(|one.queue|, k => Written);
    assert s.writes + s.queue == one.writes + one.queue;
  }

  lemma WriterGoesOn(run: seq<Sys>, s: Sys) returns (run': seq<Sys>)
    requires IsRun(run) && WriterStep(Runs.Last(run), s)
    ensures Runs.Continues(run, run', Init, Next) && Runs.Last(run') == s
  {
    run' := Runs.Go(run, s, Init, Next);
  }

  lemma PlayOne(run: seq<Sys>) returns (run': seq<Sys>)
    requires IsRun(run) && Runs.Last(run).writer == Selecting && Runs.Last(run).queue != []
    ensures Runs.Continues(run, run', Init, Next) && Runs.Last(run') == PlayedOne(Runs.Last(run))
  {
    var s := Runs.Last(run);
    var f := s.queue[0];
    var s1 := s.(writer := Writing(f), queue := s.queue[1..]);
    run' := WriterGoesOn(run, s1);
    var s2 := s1.(writer := Pacing, fates := s1.fates + [Written], writes := s1.writes + [f]);
    run' := WriterGoesOn(run', s2);
    run' := WriterGoesOn(run', s2.(writer := Timed));
    run' := WriterGoesOn(run', s2.(writer := Selecting, account := Done(s2.account, 1)));
  }

  /** The writer, undisturbed, writes the whole queue, in order. */
  lemma PlayAll(run: seq<Sys>) returns (run': seq<Sys>)
    requires IsRun(run) && Runs.Last(run).writer == Selecting
    ensures Runs.Continues(run, run', Init, Next) && Runs.Last(run') == Played(Runs.Last(run))
    decreases |Runs.Last(run).queue|
  {
    var s := Runs.Last(run);
    if s.queue == [] {
      run' := run;
      assert Played(s) == s;
    } else {
      RunAccounted(run, |run| - 1);
      QueueIsPending(s);
      run' := PlayOne(run);
      run' := PlayAll(run');
      PlayedFirst(s);
    }
  }

  lemma QueueIsPending(s: Sys)
    requires Accounted(s)
    ensures s.account.pending >= |s.queue|
  {
  }

  /** A reply of up to 512 frames that finds the downlink idle can be written whole, in order, and a caller that
      comes to wait meanwhile leaves through the idle channel once all is written. */
  lemma ReplyIsPlayed(run: seq<Sys>, n: nat) returns (run': seq<Sys>)
    requires IsRun(run) && 1 <= n <= 512
    requires var s := Runs.Last(run); s.writer == Selecting && s.queue == [] && s.account.pending == 0
    ensures Runs.Continues(run, run', Init, Next)
    ensures var s, t := Runs.Last(run), Runs.Last(run');
      && t.writes == s.writes + seq(n, k => |s.owners| + k) && t.queue == []
      && t.owners == s.owners + seq(n, k => |s.producers|)
      && t.producers == s.producers + [Finished] && t.waiters == s.waiters + [Left(true)]
      && t.writer == Selecting && t.account.pending == 0
  {
    var s, p := Runs.Last(run), |Runs.Last(run).producers|;
    RunAccounted(run, |run| - 1);
    var s1 := s.(producers := s.producers + [Marking(n)]);
    assert CallStep(s, s1);
    run' := Runs.Go(run, s1, Init, Next);
    run' := EnqueueAll(run', p);
    run' := WaiterComes(run');
    var s2 := Runs.Last(run');
    assert s2.queue == NextFrames(s, n);
    run' := PlayAll(run');
    var s3 := Runs.Last(run');
    assert s3.account.pending == 0 && s2.account.idle in s3.account.closed;
    run' := WaiterLeaves(run', |s.waiters|);
    var s4 := Runs.Last(run');
    var s5 := s4.(producers := s4.producers[p := Finished]);
    assert ProducerStep(s4, p, s5);
    run' := Runs.Go(run', s5, Init, Next);
    assert s5.producers == s.producers + [Finished] && s5.waiters == s.waiters + [Left(true)];
  }

  lemma WaiterComes(run: seq<Sys>) returns (run': seq<Sys>)
    requires IsRun(run)
    ensures Runs.Continues(run, run', Init, Next)
    ensures var s := Runs.Last(run); Runs.Last(run') == s.(waiters := s.waiters + [Awaiting(s.account.idle)])
  {
    var s := Runs.Last(run);
    var w, s1 := |s.waiters|, s.(waiters := s.waiters + [Entering]);
    assert CallStep(s, s1);
    run' := Runs.Go(run, s1, Init, Next);
    var s2 := s1.(waiters := s1.waiters[w := Awaiting(s1.account.idle)]);
    assert WaiterStep(s1, w, s2);
    run' := Runs.Go(run', s2, Init, Next);
    assert s2.waiters == s.waiters + [Awaiting(s.account.idle)];
  }

  lemma WaiterLeaves(run: seq<Sys>, w: nat) returns (run': seq<Sys>)
    requires IsRun(run)
    requires var s := Runs.Last(run);
      w < |s.waiters| && s.waiters[w].Awaiting? && s.waiters[w].idle in s.account.closed
    ensures Runs.Continues(run, run', Init, Next)
    ensures var s := Runs.Last(run); Runs.Last(run') == s.(waiters := s.waiters[w := Left(true)])
  {
    var s := Runs.Last(run);
    var s' := s.(waiters := s.waiters[w := Left(true)]);
    assert WaiterStep(s, w, s');
    run' := Runs.Go(run, s', Init, Next);
  }

  /** A frame that cannot be written is accounted for like one that was. */
  lemma WriteMayFail(run: seq<Sys>) returns (run': seq<Sys>)
    requires IsRun(run) && Runs.Last(run).writer.Writing?
    ensures Runs.Continues(run, run', Init, Next)
    ensures var s := Runs.Last(run);
      Runs.Last(run') == s.(writer := Selecting, fates := s.fates + [WriteFailed], account := Done(s.account, 1))
  {
    var s := Runs.Last(run);
    var s1 := s.(writer := Failed, fates := s.fates + [WriteFailed]);
    run' := WriterGoesOn(run, s1);
    run' := WriterGoesOn(run', s1.(writer := Selecting, account := Done(s1.account, 1)));
  }

  // A reply is flushed.

  lemma DrainAll(run: seq<Sys>) returns (run': seq<Sys>)
    requires IsRun(run) && Runs.Last(run).writer.Draining?
    ensures Runs.Continues(run, run', Init, Next)
    ensures var s := Runs.Last(run);
      Runs.Last(run') == s.(queue := [], writer := Draining(s.writer.ack, s.writer.drained + |s.queue|),
                            fates := s.fates + seq(|s.queue|, k => Flushed))
    decreases |Runs.Last(run).queue|
  {
    var s := Runs.Last(run);
    run' := run;
    if s.queue != [] {
      var s' := s.(writer := Draining(s.writer.ack, s.writer.drained + 1), queue := s.queue[1..],
                   fates := s.fates + [Flushed]);
      run' := WriterGoesOn(run, s');
      run' := DrainAll(run');
      assert s.fates + seq(|s.queue|, k => Flushed) == s'.fates + seq(|s'.queue|, k => Flushed);
    } else {
      assert s.fates + seq(|s.queue|, k => Flushed) == s.fates;
    }
  }

  /** From the drain of a flush that has just begun to the return of the call. */
  lemma DrainAndReturn(run: seq<Sys>, a: nat, mark: nat) returns (run': seq<Sys>)
    requires IsRun(run) && Runs.Last(run).writer == Draining(a, 0)
    requires a < |Runs.Last(run).flushers| && Runs.Last(run).flushers[a] == Waiting(mark)
    ensures Runs.Continues(run, run', Init, Next)
    ensures var s := Runs.Last(run);
      Runs.Last(run') == s.(queue := [], writer := Selecting, fates := s.fates + seq(|s.queue|, k => Flushed),
                            account := Done(s.account, |s.queue|), flushers := s.flushers[a := Returned(mark)])
  {
    var s := Runs.Last(run);
    var n := |s.queue|;
    run' := DrainAll(run);
    var s1 := Runs.Last(run');
    var s2 := s1.(writer := Acking(a), account := Done(s1.account, n));
    if n > 0 {
      run' := WriterGoesOn(run', s1.(writer := Drained(a, n)));
    }
    run' := WriterGoesOn(run', s2);
    var s3 := s2.(writer := Selecting, flushers := s2.flushers[a := Acked(mark)]);
    run' := WriterGoesOn(run', s3);
    var s4 := s3.(flushers := s3.flushers[a := Returned(mark)]);
    assert FlusherStep(s3, a, s4);
    run' := Runs.Go(run', s4, Init, Next);
    assert s4.flushers == s.flushers[a := Returned(mark)];
  }

  /** A call of Flush that finds the writer at its choice or pacing a frame can return with the queue dropped, the
      paced frame done, and nothing more written. */
  lemma FlushReturns(run: seq<Sys>) returns (run': seq<Sys>)
    requires IsRun(run) && (Runs.Last(run).writer == Selecting || Runs.Last(run).writer == Pacing)
    ensures Runs.Continues(run, run', Init, Next)
    ensures var s, t := Runs.Last(run), Runs.Last(run');
      && t.queue == [] && t.writes == s.writes && t.fates == s.fates + seq(|s.queue|, k => Flushed)
      && t.writer == Selecting && t.flushers == s.flushers + [Returned(|s.enqueued|)]
      && t.account.pending == s.account.pending - |s.queue| - if s.writer == Pacing then 1 else 0
  {
    var s := Runs.Last(run);
    RunAccounted(run, |run| - 1);
    var a, mark := |s.flushers|, |s.enqueued|;
    var s1 := s.(flushers := s.flushers + [Calling(mark)]);
    assert CallStep(s, s1);
    run' := Runs.Go(run, s1, Init, Next);
    var s2 := s1.(flushers := s1.flushers[a := Waiting(mark)],
                  writer := if s.writer == Pacing then FlushPaced(a) else Draining(a, 0));
    assert FlusherStep(s1, a, s2);
    run' := Runs.Go(run', s2, Init, Next);
    if s.writer == Pacing {
      run' := WriterGoesOn(run', s2.(writer := Draining(a, 0), account := Done(s2.account, 1)));
    }
    run' := DrainAndReturn(run', a, mark);
    assert Runs.Last(run').flushers == s.flushers + [Returned(mark)];
  }

  // The downlink is closed.

  /** After a call of Close the writer can stop, from its choice holding nothing, and while pacing, holding that
      frame. */
  lemma CloseStops(run: seq<Sys>) returns (run': seq<Sys>)
    requires IsRun(run) && (Runs.Last(run).writer == Selecting || Runs.Last(run).writer == Pacing)
    ensures Runs.Continues(run, run', Init, Next)
    ensures var s := Runs.Last(run);
      Runs.Last(run') == s.(closed := true, writer := Stopped(if s.writer == Pacing then 1 else 0))
  {
    var s := Runs.Last(run).(closed := true);
    run' := run;
    if !Runs.Last(run).closed {
      assert CallStep(Runs.Last(run), s);
      run' := Runs.Go(run, s, Init, Next);
    }
    var h: nat := if s.writer == Pacing then 1 else 0;
    run' := WriterGoesOn(run', s.(writer := Leaving(h)));
    run' := WriterGoesOn(run', s.(writer := Stopped(h)));
  }

  /** A frame on offer can be refused then, and gives its reservation back. */
  lemma FrameIsRefused(run: seq<Sys>, p: nat) returns (run': seq<Sys>)
    requires IsRun(run) && Runs.Last(run).closed
    requires p < |Runs.Last(run).producers| && Runs.Last(run).producers[p].Offering?
    ensures Runs.Continues(run, run', Init, Next)
    ensures var s := Runs.Last(run);
      Runs.Last(run') == s.(producers := s.producers[p := Finished], account := Done(s.account, 1),
                            refused := s.refused + 1)
  {
    var s := Runs.Last(run);
    var s1 := s.(producers := s.producers[p := Rejected]);
    assert ProducerStep(s, p, s1);
    run' := Runs.Go(run, s1, Init, Next);
    var s2 := s1.(producers := s1.producers[p := Finished], account := Done(s.account, 1), refused := s.refused + 1);
    assert ProducerStep(s1, p, s2);
    run' := Runs.Go(run', s2, Init, Next);
    assert s2.producers == s.producers[p := Finished];
  }

  /** Once the writer has stopped, a call of Flush returns, and so does one that still waits for its ack, and a
      call of WaitIdle that something pending holds up leaves too. */
  lemma StoppedLetsGo(run: seq<Sys>, f: nat, w: nat) returns (run': seq<Sys>)
    requires IsRun(run) && Runs.Last(run).writer.Stopped?
    requires var s := Runs.Last(run); f < |s.flushers| && (s.flushers[f].Calling? || s.flushers[f].Waiting?)
    requires var s := Runs.Last(run); w < |s.waiters| && s.waiters[w].Awaiting?
    ensures Runs.Continues(run, run', Init, Next)
    ensures var s := Runs.Last(run);
      Runs.Last(run') == s.(flushers := s.flushers[f := Returned(s.flushers[f].mark)],
                            waiters := s.waiters[w := Left(false)])
  {
    var s := Runs.Last(run);
    var s1 := s.(flushers := s.flushers[f := Returned(s.flushers[f].mark)]);
    assert FlusherStep(s, f, s1);
    run' := Runs.Go(run, s1, Init, Next);
    var s2 := s1.(waiters := s1.waiters[w := Left(false)]);
    assert WaiterStep(s1, w, s2);
    run' := Runs.Go(run', s2, Init, Next);
  }

  /** Nothing else can become of a frame on offer: it waits while 512 are queued, unless the downlink is closed. */
  lemma OfferWaits(s: Sys, p: nat, s': Sys)
    requires p < |s.producers| && s.producers[p].Offering? && ProducerStep(s, p, s')
    ensures s'.producers[p] == Rejected ==> s.closed
    ensures s'.producers[p] != Rejected ==> |s.queue| < 512 && s'.queue == s.queue + [s.producers[p].frame]
  {
  }

  /** Pacing a frame ends with its timer, with a close or with a flush. */
  lemma OnlyTheseEndPacing(s: Sys, s': Sys)
    requires s.writer == Pacing && Next(s, s') && s'.writer != Pacing
    ensures s'.writer == Timed || (s.closed && s'.writer == Leaving(1))
         || (s'.writer.FlushPaced? && s'.writer.ack < |s.flushers| && s.flushers[s'.writer.ack].Calling?)
  {
  }
}
