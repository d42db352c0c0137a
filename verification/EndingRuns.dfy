/** Runs that break, and one that keeps, the order of session.ending and turn.completed. */
module EndingRuns {
  import opened Counting
  import opened SessionTask
  import opened TurnProtocol
  import opened TurnEnding
  import opened LateCompletions
  import opened CompletionWays
  import opened EndingOrder
  import Runs

  /** The session is active, and its entry is in the table. */
  const ACTIVE := Sys(Task(Active, 0), true, Live(0), 1, [Gone, Gone], [Nothing, Nothing], [])

  lemma ReachNegotiating() returns (run: seq<Sys>)
    ensures IsRun(run)
    ensures Runs.Last(run) == START.(
      task := Task(Negotiating, 0), threads := [Calling(NewActive)], effects := [Nothing])
  {
    Runs.Begin(START, Init, Next);
    run := Spawn([START], Calling(Negotiate));
    run := Move(run, 0, Calling(NewActive), Called(Runs.Last(run), BeginNegotiation));
  }

  lemma ReachActive() returns (run: seq<Sys>)
    ensures IsRun(run) && Runs.Last(run) == ACTIVE
  {
    run := ReachNegotiating();
    run := Move(run, 0, Gone, Called(Runs.Last(run), MarkActive));
    run := Spawn(run, Table(MakeEntry(false)));
    run := Move(run, 1, Gone, Runs.Last(run).(entry := Live(0), entries := 1));
  }

  const STARTED := [TurnStarted(1), VadStarted(1)]

  /** Speech has opened turn 1, and its goroutine asks for the recognizer. */
  const HEARD := Sys(Task(Processing, 1), true, Live(0), 1, [Gone, Gone, Table(AsrLook)],
                     [Nothing, Nothing, Allotted(1)], STARTED)

  lemma ReachHeard() returns (run: seq<Sys>)
    ensures IsRun(run) && Runs.Last(run) == HEARD
  {
    run := ReachActive();
    run := Spawn(run, Table(VadStart));
    run := Move(run, 2, Looking(VadLook), Runs.Last(run));
    run := Move(run, 2, Calling(VadEnsure), Runs.Last(run));
    var told := Tell(VadStarted(1), Table(AsrLook));
    run := Move(run, 2, Tell(TurnStarted(1), told), Called(Runs.Last(run), EnsureTurn));
    run := Move(run, 2, told, Runs.Last(run).(log := [TurnStarted(1)]));
    run := Move(run, 2, Table(AsrLook), Runs.Last(run).(log := STARTED));
  }

  /** A goroutine that asks for the recognizer becomes a stream of turn 1. */
  lemma Listen(run: seq<Sys>, i: nat) returns (run': seq<Sys>)
    requires IsRun(run) && At(run, i, Table(AsrLook)) && Runs.Last(run).entry != Absent
    requires Runs.Last(run).listed && Runs.Last(run).task.turn == 1
    ensures Runs.Continues(run, run', Init, Next)
    ensures Runs.Last(run') == Runs.Last(run).(threads := Runs.Last(run).threads[i := Looking(Stream(1))])
  {
    run' := Move(run, i, Looking(SpeechStart), Runs.Last(run));
    run' := Move(run', i, Looking(Stream(1)), Runs.Last(run'));
  }

  /** The run of a final of turn 1 is about to complete it. */
  lemma Respond(run: seq<Sys>, i: nat) returns (run': seq<Sys>)
    requires IsRun(run) && At(run, i, Looking(Stream(1)))
    requires Runs.Last(run).listed && Runs.Last(run).task == Task(Processing, 1)
    ensures Runs.Continues(run, run', Init, Next)
    ensures Runs.Last(run') == Runs.Last(run).(
      task := Task(Responding, 1), effects := Runs.Last(run).effects + [Answering(1)],
      threads := Runs.Last(run).threads[i := Calling(Complete(1, true))])
  {
    run' := Move(run, i, Calling(RunRespond(1, true)), Runs.Last(run));
    run' := Move(run', i, Looking(RunWork(1, true)), Called(Runs.Last(run'), StartResponse(1)));
    run' := Move(run', i, Calling(Complete(1, true)), Runs.Last(run'));
  }

  const ANSWERED := HEARD.(task := Task(Responding, 1), threads := [Gone, Gone, Calling(Complete(1, true))],
                           effects := [Nothing, Nothing, Allotted(1), Answering(1)])

  lemma ReachAnswered() returns (run: seq<Sys>)
    ensures IsRun(run) && Runs.Last(run) == ANSWERED
  {
    run := ReachHeard();
    run := Listen(run, 2);
    run := Respond(run, 2);
  }

  /** A run that is about to schedule the end announces it. */
  lemma AnnounceEnding(run: seq<Sys>, i: nat, k: nat, own: bool) returns (run': seq<Sys>)
    requires IsRun(run) && At(run, i, Table(ScheduleEnd(k, own))) && Runs.Last(run).entry == Live(0)
    ensures Goes(run, run', SameEntry) && |run'| > 1
    ensures SendsEnding(run'[|run'| - 2], Runs.Last(run'), k, own) && run'[|run'| - 2].log == Runs.Last(run).log
    ensures Runs.Last(run') == Runs.Last(run).(
      entry := Ending(0), log := Runs.Last(run).log + [SessionEnding(k, own, 0)],
      threads := Runs.Last(run).threads[i := Table(CloseEntry(true))])
  {
    var s, ending := Runs.Last(run), SessionEnding(k, own, 0);
    var mid := Move(run, i, Tell(ending, Table(CloseEntry(true))), s.(entry := Ending(0)));
    run' := Move(mid, i, Table(CloseEntry(true)), Runs.Last(mid).(log := s.log + [ending]));
    assert run'[|run'| - 2] == Runs.Last(mid);
  }

  /** Turn 1 is interrupted just before its completion. */
  const CUT := HEARD.(task := Task(Active, 1),
                      threads := [Gone, Gone, Calling(Complete(1, true)), Tell(HttpInterruptReply(1, 2), Gone)],
                      effects := [Nothing, Nothing, Allotted(1), Answering(1), Interrupted(1)])

  lemma ReachCut() returns (run: seq<Sys>)
    ensures IsRun(run) && Runs.Last(run) == CUT
  {
    run := ReachAnswered();
    run := Spawn(run, Calling(HttpInterrupt));
    run := Move(run, 3, Tell(HttpInterruptReply(1, 2), Gone), Called(Runs.Last(run), Interrupt));
  }

  /** A run in which turn 1 is interrupted just before its completion, never completed, and the session
      ends nevertheless. */
  lemma EndingWithoutCompletion() returns (run: seq<Sys>)
    ensures IsRun(run) && Runs.Last(run).log == STARTED + [SessionEnding(1, false, 0)]
    ensures Runs.Last(run).effects == [Nothing, Nothing, Allotted(1), Answering(1), Interrupted(1), Nothing]
  {
    run := ReachCut();
    run := Move(run, 2, Table(ScheduleEnd(1, false)), Called(Runs.Last(run), CompleteTurn(1)));
    run := AnnounceEnding(run, 2, 1, false);
  }

  /** The run has completed turn 1 and said so. */
  const DONE := HEARD.(task := Task(Active, 1), threads := [Gone, Gone, Table(ScheduleEnd(1, true))],
                       effects := [Nothing, Nothing, Allotted(1), Answering(1), Completed(1)],
                       log := STARTED + [TurnCompleted(1)])

  lemma ReachDone() returns (run: seq<Sys>)
    ensures IsRun(run) && Runs.Last(run) == DONE
  {
    run := ReachAnswered();
    var end := Table(ScheduleEnd(1, true));
    run := Move(run, 2, Tell(TurnCompleted(1), end), Called(Runs.Last(run), CompleteTurn(1)));
    run := Move(run, 2, end, Runs.Last(run).(log := DONE.log));
  }

  /** A run in which the end follows the completion of its turn, and the completion of another turn follows
      the end: speech was let in just before the end was scheduled. */
  lemma CompletionAfterEnding() returns (run: seq<Sys>)
    ensures IsRun(run) && Runs.Last(run).entries == 1
    ensures DONE.log + [SessionEnding(1, true, 0)] <= Runs.Last(run).log
    ensures TurnCompleted(2) in Runs.Last(run).log[4..]
  {
    var ended := ReachDone();
    ended := Spawn(ended, Table(VadStart));
    ended := Move(ended, 3, Looking(VadLook), Runs.Last(ended));
    ended := AnnounceEnding(ended, 2, 1, true);
    run := FromVadLook(ended, 3, 2);
  }

  /** The same run without that speech keeps the order whatever follows, though the session is still listed,
      unless a further entry of the table is made for it. */
  lemma KeptWhileListed() returns (run: seq<Sys>)
    ensures IsRun(run) && |run| > 1 && Runs.Last(run).listed
    ensures Runs.Last(run).log == DONE.log + [SessionEnding(1, true, 0)]
    ensures Guaranteed(run, SameEntry) && !Guaranteed(run, AnyEntry)
  {
    run := ReachDone();
    run := AnnounceEnding(run, 2, 1, true);
    var s := Runs.Last(run);
    assert DONE.log[2] == TurnCompleted(1);
    assert s.threads == [Gone, Gone, Table(CloseEntry(true))];
    forall m: nat ensures OwedByAll(s.threads, Completed(m)) == 0 {
      if OwedByAll(s.threads, Completed(m)) > 0 {
        var _ := TotalFrom(s.threads, Owing(Completed(m)));
      }
    }
    OrderGuaranteedExactly(run, SameEntry, 1, true);
    OrderGuaranteedExactly(run, AnyEntry, 1, true);
  }

  /** Two streams listen to turn 1, one after the other. */
  lemma ReachTwoStreams() returns (run: seq<Sys>)
    ensures IsRun(run)
    ensures Runs.Last(run) == HEARD.(threads := [Gone, Gone, Looking(Stream(1)), Looking(Stream(1))],
                                     effects := HEARD.effects + [Nothing], log := STARTED + [VadStarted(1)])
  {
    run := ReachHeard();
    run := Listen(run, 2);
    run := Spawn(run, Table(VadStart));
    run := Move(run, 3, Looking(VadLook), Runs.Last(run));
    run := Move(run, 3, Calling(VadEnsure), Runs.Last(run));
    run := Move(run, 3, Tell(VadStarted(1), Table(AsrLook)), Called(Runs.Last(run), EnsureTurn));
    run := Move(run, 3, Table(AsrLook), Runs.Last(run).(log := STARTED + [VadStarted(1)]));
    run := Listen(run, 3);
  }

  /** One comes to a reply, and the other completes the turn with an empty final. */
  const TAKEN := HEARD.(
    task := Task(Active, 1), threads := [Gone, Gone, Calling(Complete(1, true)), Tell(TurnCompleted(1), Gone)],
    effects := [Nothing, Nothing, Allotted(1), Nothing, Answering(1), Completed(1)], log := STARTED + [VadStarted(1)])

  lemma ReachTaken() returns (run: seq<Sys>)
    ensures IsRun(run) && Runs.Last(run) == TAKEN
  {
    run := ReachTwoStreams();
    run := Respond(run, 2);
    run := Move(run, 3, Calling(Complete(1, false)), Runs.Last(run));
    run := Move(run, 3, Tell(TurnCompleted(1), Gone), Called(Runs.Last(run), CompleteTurn(1)));
  }

  /** A run in which the turn that ends is completed by an empty final, but this is told only after the end. */
  lemma CompletionToldLate() returns (run: seq<Sys>)
    ensures IsRun(run)
    ensures Runs.Last(run).log == STARTED + [VadStarted(1)] + [SessionEnding(1, false, 0)] + [TurnCompleted(1)]
  {
    run := ReachTaken();
    run := Move(run, 2, Table(ScheduleEnd(1, false)), Called(Runs.Last(run), CompleteTurn(1)));
    run := AnnounceEnding(run, 2, 1, false);
    run := Move(run, 3, Gone, Runs.Last(run).(log := Runs.Last(run).log + [TurnCompleted(1)]));
  }
}
