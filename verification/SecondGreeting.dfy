/** When an entry of the session table greets its caller again (internal/app/bot/rtc_manager.go): the
    failure of another entry's attempt clears its flag. */
module SecondGreeting {
  import opened Counting
  import opened Outcome
  import opened OpeningRendezvous
  import Runs

  /** The session is listed; and an attempt on e is under way, or the current entry is e, its end is not
      scheduled, and its flag is clear or about to be cleared by its own failure. */
  predicate MayGreet(s: Sys, e: nat)
    requires e < |s.entries|
  {
    && s.listed
    && (|| StartOpening(e) in s.threads
        || (s.current == e && !s.entries[e].endingScheduled
            && (!s.entries[e].openingTurnStarted || UndoOpening(e) in s.threads)))
  }

  ghost predicate Continues(run: seq<Sys>, run': seq<Sys>) {
    Runs.Continues(run, run', Init, Next)
  }

  /** In run', which goes on from run, e opens another turn without its flag being cleared by others. */
  ghost predicate GreetsOn(run: seq<Sys>, run': seq<Sys>, e: nat) {
    && Continues(run, run')
    && Count(Runs.Last(run').log, Opened(e)) > Count(Runs.Last(run).log, Opened(e))
    && Count(Runs.Last(run').log, Reset(e)) == Count(Runs.Last(run).log, Reset(e))
  }

  // Without such a way, nothing opens.

  /** Others have cleared the flag of e more often than r times, or e cannot open more turns than its o. */
  ghost predicate Barred(s: Sys, e: nat, r: nat, o: nat) {
    && e < |s.entries| && -1 <= s.current < |s.entries|
    && Count(s.log, Reset(e)) >= r
    && (Count(s.log, Reset(e)) == r ==> Count(s.log, Opened(e)) == o && !MayGreet(s, e))
  }

  /** A step opens a way for e only by clearing its flag from elsewhere. */
  lemma MoveOpensNoWay(s: Sys, i: int, pc': Pc, m: Sys, e: nat)
    requires StepOf(s, i, pc', m) && e < |s.entries| && -1 <= s.current < |s.entries| && !MayGreet(s, e)
    ensures e < |m.entries| && -1 <= m.current < |m.entries|
    ensures || m.log == s.log + [Reset(e)]
            || (!MayGreet(m.(threads := s.threads[i := pc']), e) && m.log != s.log + [Opened(e)])
  {
    assert s.threads[i] in s.threads;
    assert forall x | x in s.threads[i := pc'] :: x == pc' || x in s.threads;
  }

  lemma MoveStaysBarred(s: Sys, i: int, pc': Pc, m: Sys, e: nat, r: nat, o: nat)
    requires StepOf(s, i, pc', m) && Barred(s, e, r, o)
    ensures Barred(m.(threads := s.threads[i := pc']), e, r, o)
  {
    LogCounts(s, i, pc', m, Opened(e));
    LogCounts(s, i, pc', m, Reset(e));
    LogStep(s, i, pc', m);
    if Count(s.log, Reset(e)) == r {
      MoveOpensNoWay(s, i, pc', m, e);
    } else {
      EntriesStay(s, i, pc', m);
    }
  }

  lemma EntriesStay(s: Sys, i: int, pc': Pc, m: Sys)
    requires StepOf(s, i, pc', m) && -1 <= s.current < |s.entries|
    ensures |s.entries| <= |m.entries| && -1 <= m.current < |m.entries|
  {
  }

  lemma NextStaysBarred(s: Sys, s': Sys, e: nat, r: nat, o: nat)
    requires Next(s, s') && Barred(s, e, r, o)
    ensures Barred(s', e, r, o)
  {
    if pc :| Starts(pc) && s' == s.(threads := s.threads + [pc]) {
      assert forall x | x in s'.threads :: x == pc || x in s.threads;
    } else {
      var i, pc', m: Sys :| StepOf(s, i, pc', m) && s' == m.(threads := s.threads[i := pc']);
      MoveStaysBarred(s, i, pc', m, e, r, o);
    }
  }

  lemma {:induction false} StaysBarred(run: seq<Sys>, i: nat, j: nat, e: nat, r: nat, o: nat)
    requires IsRun(run) && i <= j < |run| && Barred(run[i], e, r, o)
    ensures Barred(run[j], e, r, o)
  {
    if i < j {
      StaysBarred(run, i, j - 1, e, r, o);
      assert Runs.StepAt(run, j, Next);
      NextStaysBarred(run[j - 1], run[j], e, r, o);
    }
  }

  lemma OnlyTheseGreet(run: seq<Sys>, run': seq<Sys>, e: nat)
    requires IsRun(run) && e < |Runs.Last(run).entries| && GreetsOn(run, run', e)
    ensures MayGreet(Runs.Last(run), e)
  {
    var s := Runs.Last(run);
    if !MayGreet(s, e) {
      RunKeepsInv(run, |run| - 1);
      assert run'[|run| - 1] == s;
      StaysBarred(run', |run| - 1, |run'| - 1, e, Count(s.log, Reset(e)), Count(s.log, Opened(e)));
    }
  }

  // With one, something can.

  lemma Spawn(run: seq<Sys>, pc: Pc) returns (run': seq<Sys>)
    requires IsRun(run) && Starts(pc)
    ensures Continues(run, run') && Runs.Last(run') == Runs.Last(run).(threads := Runs.Last(run).threads + [pc])
  {
    var s := Runs.Last(run);
    run' := Runs.Go(run, s.(threads := s.threads + [pc]), Init, Next);
  }

  lemma Move(run: seq<Sys>, i: nat, pc': Pc, m: Sys) returns (run': seq<Sys>)
    requires IsRun(run) && StepOf(Runs.Last(run), i, pc', m)
    ensures Continues(run, run') && Runs.Last(run') == m.(threads := Runs.Last(run).threads[i := pc'])
  {
    run' := Runs.Go(run, m.(threads := Runs.Last(run).threads[i := pc']), Init, Next);
  }

  lemma GreetNow(run: seq<Sys>, i: nat, e: nat) returns (run': seq<Sys>)
    requires IsRun(run) && Runs.Last(run).listed
    requires i < |Runs.Last(run).threads| && Runs.Last(run).threads[i] == StartOpening(e)
    ensures Continues(run, run') && |Runs.Last(run').entries| == |Runs.Last(run).entries|
    ensures Runs.Last(run').log == Runs.Last(run).log + [Opened(e)]
  {
    var s := Runs.Last(run);
    run' := Move(run, i, Gone, s.(log := s.log + [Opened(e)]));
  }

  lemma GreetWhenReady(run: seq<Sys>, i: nat, e: nat) returns (run': seq<Sys>)
    requires IsRun(run) && Runs.Last(run).listed
    requires i < |Runs.Last(run).threads| && Runs.Last(run).threads[i] == TryOpening
    requires Runs.Last(run).current == e && MayOpen(Here(Runs.Last(run)))
    ensures Continues(run, run') && |Runs.Last(run').entries| == |Runs.Last(run).entries|
    ensures Runs.Last(run').log == Runs.Last(run).log + [Attempted(e)] + [Opened(e)]
  {
    var s := Runs.Last(run);
    run' := Move(run, i, StartOpening(e), WithHere(s, Claimed(Here(s))).(log := s.log + [Attempted(e)]));
    run' := GreetNow(run', i, e);
  }

  /** The control channel opens once more, and the track comes once more. */
  lemma GreetFromClear(run: seq<Sys>, e: nat) returns (run': seq<Sys>)
    requires IsRun(run) && Runs.Last(run).listed
    requires e < |Runs.Last(run).entries| && Runs.Last(run).current == e
    requires !Runs.Last(run).entries[e].endingScheduled && !Runs.Last(run).entries[e].openingTurnStarted
    ensures Continues(run, run') && |Runs.Last(run').entries| == |Runs.Last(run).entries|
    ensures Runs.Last(run').log == Runs.Last(run).log + [Attempted(e)] + [Opened(e)]
  {
    var i := |Runs.Last(run).threads|;
    run' := Spawn(run, MarkReady);
    run' := Move(run', i, TryOpening, WithHere(Runs.Last(run'), Readied(Here(Runs.Last(run')))));
    run' := Spawn(run', Register);
    run' := Move(run', i + 1, TryOpening, WithHere(Runs.Last(run'), Registered(Here(Runs.Last(run')))));
    run' := GreetWhenReady(run', i, e);
  }

  lemma GreetFromUndo(run: seq<Sys>, i: nat, e: nat) returns (run': seq<Sys>)
    requires IsRun(run) && Runs.Last(run).listed
    requires i < |Runs.Last(run).threads| && Runs.Last(run).threads[i] == UndoOpening(e)
    requires e < |Runs.Last(run).entries| && Runs.Last(run).current == e
    requires !Runs.Last(run).entries[e].endingScheduled
    ensures Continues(run, run') && |Runs.Last(run').entries| == |Runs.Last(run).entries|
    ensures Runs.Last(run').log == Runs.Last(run).log + [Attempted(e)] + [Opened(e)]
  {
    var s := Runs.Last(run);
    assert s.log + [] == s.log;
    run' := Move(run, i, Gone, WithHere(s, Released(Here(s))));
    run' := GreetFromClear(run', e);
  }

  lemma CountsOfGreeting(log: seq<Event>, e: nat)
    ensures Count(log + [Opened(e)], Opened(e)) == Count(log, Opened(e)) + 1
    ensures Count(log + [Opened(e)], Reset(e)) == Count(log, Reset(e))
    ensures Count(log + [Attempted(e)] + [Opened(e)], Opened(e)) == Count(log, Opened(e)) + 1
    ensures Count(log + [Attempted(e)] + [Opened(e)], Reset(e)) == Count(log, Reset(e))
  {
    forall x | x == Opened(e) || x == Reset(e)
      ensures Count(log + [Attempted(e)], x) == Count(log, x)
      ensures Count(log + [Opened(e)], x) == Count(log, x) + if x == Opened(e) then 1 else 0
      ensures Count(log + [Attempted(e)] + [Opened(e)], x) == Count(log, x) + if x == Opened(e) then 1 else 0
    {
      CountMore(log, Attempted(e), x);
      CountMore(log, Opened(e), x);
      CountMore(log + [Attempted(e)], Opened(e), x);
    }
  }

  lemma Greet(run: seq<Sys>, e: nat) returns (run': seq<Sys>)
    requires IsRun(run) && e < |Runs.Last(run).entries| && MayGreet(Runs.Last(run), e)
    ensures GreetsOn(run, run', e)
  {
    var s := Runs.Last(run);
    CountsOfGreeting(s.log, e);
    if StartOpening(e) in s.threads {
      var i :| 0 <= i < |s.threads| && s.threads[i] == StartOpening(e);
      run' := GreetNow(run, i, e);
    } else if !s.entries[e].openingTurnStarted {
      run' := GreetFromClear(run, e);
    } else {
      var i :| 0 <= i < |s.threads| && s.threads[i] == UndoOpening(e);
      run' := GreetFromUndo(run, i, e);
    }
  }

  /** From every reachable state: an entry can open a further turn, with no others clearing its flag any
      more, if and only if an attempt on it is under way, or it is current, not ending, and its flag is
      clear or about to be cleared by its own failed attempt. */
  lemma GreetsOnExactly(run: seq<Sys>, e: nat)
    requires IsRun(run) && e < |Runs.Last(run).entries|
    ensures (exists run' :: GreetsOn(run, run', e)) <==> MayGreet(Runs.Last(run), e)
  {
    if run' :| GreetsOn(run, run', e) {
      OnlyTheseGreet(run, run', e);
    }
    if MayGreet(Runs.Last(run), e) {
      var run' := Greet(run, e);
    }
  }

  /** An entry that has opened its turn can open another exactly if that condition holds, and then the
      failure of another entry has cleared its flag. */
  lemma GreetsAgainExactly(run: seq<Sys>, e: nat)
    requires IsRun(run) && e < |Runs.Last(run).entries| && Opened(e) in Runs.Last(run).log
    ensures (exists run' :: GreetsOn(run, run', e))
      <==> MayGreet(Runs.Last(run), e) && Reset(e) in Runs.Last(run).log
  {
    var s := Runs.Last(run);
    RunKeepsInv(run, |run| - 1);
    assert EntryInv(s, e);
    CountPositive(s.log, Opened(e));
    CountPositive(s.log, Reset(e));
    CountPositive(s.threads, StartOpening(e));
    CountPositive(s.threads, UndoOpening(e));
    GreetsOnExactly(run, e);
  }

  /** So an entry whose flag another's failure cleared after it greeted greets again as soon as the
      channel or the track is reported once more, while it is current and its end is not scheduled. */
  lemma ClearedGreetsAgain(run: seq<Sys>, e: nat) returns (run': seq<Sys>)
    requires IsRun(run) && e < |Runs.Last(run).entries| && Opened(e) in Runs.Last(run).log
    requires Runs.Last(run).listed && Runs.Last(run).current == e && MayOpen(Here(Runs.Last(run)))
    ensures Reset(e) in Runs.Last(run).log
    ensures GreetsOn(run, run', e) && Count(Runs.Last(run').log, Opened(e)) >= 2
  {
    GreetsAgainExactly(run, e);
    run' := Greet(run, e);
    CountPositive(Runs.Last(run).log, Opened(e));
  }

  // It happens.

  const TRYING := Entry(true, true, true, false)
  const OPEN := Entry(true, true, false, false)

  /** An entry with an attempt in flight. */
  lemma ReachAttempt() returns (run: seq<Sys>)
    ensures IsRun(run)
    ensures Runs.Last(run) == Sys([TRYING], 0, true, [Gone, StartOpening(0)], [Attempted(0)])
  {
    Runs.Begin(EMPTY, Init, Next);
    run := [EMPTY];
    run := Spawn(run, MarkReady);
    run := Move(run, 0, TryOpening, Sys([Entry(true, false, false, false)], 0, true, [MarkReady], []));
    run := Move(run, 0, Gone, Runs.Last(run));
    run := Spawn(run, Register);
    run := Move(run, 1, TryOpening, Runs.Last(run).(entries := [OPEN]));
    run := Move(run, 1, StartOpening(0), Runs.Last(run).(entries := [TRYING], log := [Attempted(0)]));
  }

  /** The entry is replaced while its attempt is in flight, and the fresh one opens its turn. */
  lemma ReachReplaced() returns (run: seq<Sys>)
    ensures IsRun(run)
    ensures Runs.Last(run) == Sys([TRYING, TRYING], 1, true, [Gone, StartOpening(0), Gone, Gone, Gone],
                                  [Attempted(0), Attempted(1), Opened(1)])
  {
    run := ReachAttempt();
    run := Spawn(run, Close);
    run := Move(run, 2, Gone, Runs.Last(run).(current := -1));
    run := Spawn(run, MarkReady);
    run := Move(run, 3, TryOpening,
                Runs.Last(run).(entries := [TRYING, Entry(true, false, false, false)], current := 1));
    run := Move(run, 3, Gone, Runs.Last(run));
    run := Spawn(run, Register);
    run := Move(run, 4, TryOpening, Runs.Last(run).(entries := [TRYING, OPEN]));
    run := Move(run, 4, StartOpening(1),
                Runs.Last(run).(entries := [TRYING, TRYING], log := [Attempted(0), Attempted(1)]));
    run := Move(run, 4, Gone, Runs.Last(run).(log := [Attempted(0), Attempted(1), Opened(1)]));
  }

  /** A run in which one entry opens two turns: the late failure of the replaced entry cleared its flag,
      and the control channel opened again. */
  lemma GreetedTwice() returns (run: seq<Sys>)
    ensures IsRun(run) && |Runs.Last(run).entries| == 2
    ensures Count(Runs.Last(run).log, Opened(1)) == 2 && Count(Runs.Last(run).log, Reset(1)) == 1
  {
    run := ReachReplaced();
    run := Move(run, 1, UndoOpening(0), Runs.Last(run));
    run := Move(run, 1, Gone, Runs.Last(run).(entries := [TRYING, OPEN], log := CLEARED));
    run := GreetFromClear(run, 1);
    ClearedCounts();
    CountsOfGreeting(CLEARED, 1);
  }

  const CLEARED := [Attempted(0), Attempted(1), Opened(1), Reset(1)]

  lemma ClearedCounts()
    ensures Count(CLEARED, Opened(1)) == 1 && Count(CLEARED, Reset(1)) == 1
  {
    var a, b := [Attempted(0)], [Attempted(0), Attempted(1)];
    forall x | x == Opened(1) || x == Reset(1) ensures Count(CLEARED, x) == 1 {
      CountMore([], Attempted(0), x);
      CountMore(a, Attempted(1), x);
      CountMore(b, Opened(1), x);
      CountMore(b + [Opened(1)], Reset(1), x);
      assert [] + a == a && a + [Attempted(1)] == b && b + [Opened(1)] + [Reset(1)] == CLEARED;
    }
  }
}
