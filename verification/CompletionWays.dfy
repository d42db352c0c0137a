/** How the completions that can still follow come about: from every goroutine that leads to one, a run goes
    on to it. With that, which completions can follow is known exactly. */
module CompletionWays {
  import opened Counting
  import opened SessionTask
  import opened TurnProtocol
  import opened TurnEnding
  import opened LateCompletions
  import Runs

  lemma Spawn(run: seq<Sys>, pc: Pc) returns (run': seq<Sys>)
    requires IsRun(run) && Starts(pc)
    ensures Runs.Continues(run, run', Init, Next)
    ensures Runs.Last(run') == Runs.Last(run).(threads := Runs.Last(run).threads + [pc])
  {
    var s := Runs.Last(run);
    run' := Runs.Go(run, s.(threads := s.threads + [pc]), Init, Next);
  }

  lemma Move(run: seq<Sys>, i: nat, pc': Pc, n: Sys) returns (run': seq<Sys>)
    requires IsRun(run) && StepOf(Runs.Last(run), i, pc', n)
    ensures Runs.Continues(run, run', Init, Next) && |run'| == |run| + 1
    ensures Runs.Last(run') == n.(threads := Runs.Last(run).threads[i := pc'])
  {
    run' := Runs.Go(run, n.(threads := Runs.Last(run).threads[i := pc']), Init, Next);
  }

  /** Goroutine i is there. */
  predicate At(run: seq<Sys>, i: nat, pc: Pc)
    requires run != []
  {
    i < |Runs.Last(run).threads| && Runs.Last(run).threads[i] == pc
  }

  /** run' goes on from run with the session listed and its entry as it was. */
  ghost predicate Keeps(run: seq<Sys>, run': seq<Sys>) {
    && Runs.Continues(run, run', Init, Next)
    && Runs.Last(run').listed == Runs.Last(run).listed
    && Runs.Last(run').entry == Runs.Last(run).entry
    && Runs.Last(run').entries == Runs.Last(run).entries
  }

  lemma TellsOn(run: seq<Sys>, run1: seq<Sys>, run': seq<Sys>, scope: Scope, m: nat)
    requires Goes(run, run1, scope) && IsRun(run) && Tells(run1, run', scope, m)
    ensures Tells(run, run', scope, m)
  {
    RunGrows(run1, |run| - 1, |run1| - 1);
    assert run1[|run| - 1] == Runs.Last(run);
    var a, b, c := Runs.Last(run).log, Runs.Last(run1).log, Runs.Last(run').log;
    var q :| 0 <= q < |c[|b|..]| && c[|b|..][q] == TurnCompleted(m);
    assert c[|a|..][|b| + q - |a|] == TurnCompleted(m);
  }

  // Turns can be opened over HTTP at any time.

  lemma Activate(run: seq<Sys>, i: nat, pc: Pc) returns (run': seq<Sys>)
    requires IsRun(run) && Runs.Last(run).listed && At(run, i, pc)
    ensures Keeps(run, run') && At(run', i, pc)
    ensures Runs.Last(run').task == Task(Active, Runs.Last(run).task.turn)
  {
    RunKeepsInv(run, |run| - 1);
    run' := run;
    if Runs.Last(run).task.state != Active {
      run' := Spawn(run, Calling(ChannelOpen));
      run' := Move(run', |Runs.Last(run).threads|, Tell(SessionReady, Table(MakeEntry(true))),
                   Called(Runs.Last(run'), MarkActive));
    }
  }

  lemma OpenUpTo(run: seq<Sys>, i: nat, pc: Pc, m: nat) returns (run': seq<Sys>)
    requires IsRun(run) && Runs.Last(run).listed && At(run, i, pc) && Runs.Last(run).task.turn < m
    ensures Keeps(run, run') && At(run', i, pc)
    ensures Runs.Last(run').task == Task(Processing, m)
    decreases m - Runs.Last(run).task.turn
  {
    var k := Runs.Last(run).task.turn + 1;
    run' := Activate(run, i, pc);
    var j := |Runs.Last(run').threads|;
    run' := Spawn(run', Calling(HttpStartTurn));
    run' := Move(run', j, Calling(HttpRespond(k)), Called(Runs.Last(run'), StartTurn));
    if k < m {
      run' := OpenUpTo(run', i, pc, m);
    }
  }

  /** Turn m is brought to be open, and not answered unless it was. */
  lemma OpenIt(run: seq<Sys>, i: nat, pc: Pc, m: nat) returns (run': seq<Sys>)
    requires IsRun(run) && Runs.Last(run).listed && At(run, i, pc) && !Past(m, Runs.Last(run).task)
    ensures Keeps(run, run') && At(run', i, pc)
    ensures var t := Runs.Last(run').task;
      t.turn == m && HasOpenTurn(t) && (t.state == Responding ==> t == Runs.Last(run).task)
  {
    run' := run;
    if Runs.Last(run).task.turn < m {
      run' := OpenUpTo(run, i, pc, m);
    }
  }

  /** A goroutine sends its messages. */
  lemma SendAll(run: seq<Sys>, i: nat, pc: Pc) returns (run': seq<Sys>)
    requires IsRun(run) && At(run, i, pc)
    ensures Keeps(run, run') && At(run', i, Core(pc)) && Runs.Last(run').task == Runs.Last(run).task
    decreases pc
  {
    run' := run;
    if pc.Tell? {
      var s := Runs.Last(run);
      run' := Move(run, i, pc.rest, s.(log := s.log + [pc.event]));
      run' := SendAll(run', i, pc.rest);
    }
  }

  // One step of a goroutine after the other.

  lemma FromComplete(run: seq<Sys>, i: nat, m: nat, mayEnd: bool) returns (run': seq<Sys>)
    requires IsRun(run) && At(run, i, Calling(Complete(m, mayEnd)))
    requires Runs.Last(run).listed && !Past(m, Runs.Last(run).task)
    ensures Tells(run, run', SameEntry, m)
  {
    var run1 := OpenIt(run, i, Calling(Complete(m, mayEnd)), m);
    var run2 := Move(run1, i, Tell(TurnCompleted(m), Gone), Called(Runs.Last(run1), CompleteTurn(m)));
    var log := Runs.Last(run2).log;
    run' := Move(run2, i, Gone, Runs.Last(run2).(log := log + [TurnCompleted(m)]));
    assert Runs.Last(run').log[|log|..] == [TurnCompleted(m)];
    TellsOn(run, run2, run', SameEntry, m);
  }

  lemma FromWork(run: seq<Sys>, i: nat, m: nat, mayEnd: bool) returns (run': seq<Sys>)
    requires IsRun(run) && At(run, i, Looking(RunWork(m, mayEnd)))
    requires Runs.Last(run).listed && !Past(m, Runs.Last(run).task)
    ensures Tells(run, run', SameEntry, m)
  {
    var run1 := Move(run, i, Calling(Complete(m, false)), Runs.Last(run));
    run' := FromComplete(run1, i, m, false);
    TellsOn(run, run1, run', SameEntry, m);
  }

  lemma FromRespond(run: seq<Sys>, i: nat, m: nat, mayEnd: bool) returns (run': seq<Sys>)
    requires IsRun(run) && At(run, i, Calling(RunRespond(m, mayEnd)))
    requires Runs.Last(run).listed && !Past(m, Runs.Last(run).task) && !BeingAnswered(m, Runs.Last(run).task)
    ensures Tells(run, run', SameEntry, m)
  {
    var run1 := OpenIt(run, i, Calling(RunRespond(m, mayEnd)), m);
    run1 := Move(run1, i, Looking(RunWork(m, mayEnd)), Called(Runs.Last(run1), StartResponse(m)));
    run' := FromWork(run1, i, m, mayEnd);
    TellsOn(run, run1, run', SameEntry, m);
  }

  lemma FromStream(run: seq<Sys>, i: nat, m: nat) returns (run': seq<Sys>)
    requires IsRun(run) && At(run, i, Looking(Stream(m)))
    requires Runs.Last(run).listed && !Past(m, Runs.Last(run).task)
    ensures Tells(run, run', SameEntry, m)
  {
    var run1 := Move(run, i, Calling(Complete(m, false)), Runs.Last(run));
    run' := FromComplete(run1, i, m, false);
    TellsOn(run, run1, run', SameEntry, m);
  }

  lemma FromSpeechStart(run: seq<Sys>, i: nat, m: nat) returns (run': seq<Sys>)
    requires IsRun(run) && At(run, i, Looking(SpeechStart))
    requires Runs.Last(run).listed && !Past(m, Runs.Last(run).task)
    ensures Tells(run, run', SameEntry, m)
  {
    var run1 := OpenIt(run, i, Looking(SpeechStart), m);
    RunKeepsInv(run1, |run1| - 1);
    run1 := Move(run1, i, Looking(Stream(m)), Runs.Last(run1));
    run' := FromStream(run1, i, m);
    TellsOn(run, run1, run', SameEntry, m);
  }

  lemma FromAsrLook(run: seq<Sys>, i: nat, m: nat) returns (run': seq<Sys>)
    requires IsRun(run) && At(run, i, Table(AsrLook)) && Runs.Last(run).entry != Absent
    requires Runs.Last(run).listed && !Past(m, Runs.Last(run).task)
    ensures Tells(run, run', SameEntry, m)
  {
    var run1 := Move(run, i, Looking(SpeechStart), Runs.Last(run));
    run' := FromSpeechStart(run1, i, m);
    TellsOn(run, run1, run', SameEntry, m);
  }

  lemma FromEnsure(run: seq<Sys>, i: nat, m: nat) returns (run': seq<Sys>)
    requires IsRun(run) && At(run, i, Calling(VadEnsure)) && Runs.Last(run).entry != Absent
    requires Runs.Last(run).listed && !Past(m, Runs.Last(run).task)
    ensures Tells(run, run', SameEntry, m)
  {
    var run1 := OpenIt(run, i, Calling(VadEnsure), m);
    var told := Tell(VadStarted(m), Table(AsrLook));
    CoreOfTell(VadStarted(m), Table(AsrLook));
    run1 := Move(run1, i, told, Called(Runs.Last(run1), EnsureTurn));
    run1 := SendAll(run1, i, told);
    run' := FromAsrLook(run1, i, m);
    TellsOn(run, run1, run', SameEntry, m);
  }

  lemma FromVadLook(run: seq<Sys>, i: nat, m: nat) returns (run': seq<Sys>)
    requires IsRun(run) && At(run, i, Looking(VadLook)) && Runs.Last(run).entry != Absent
    requires Runs.Last(run).listed && !Past(m, Runs.Last(run).task) && !BeingAnswered(m, Runs.Last(run).task)
    ensures Tells(run, run', SameEntry, m)
  {
    var run1 := OpenIt(run, i, Looking(VadLook), m);
    run1 := Move(run1, i, Calling(VadEnsure), Runs.Last(run1));
    run' := FromEnsure(run1, i, m);
    TellsOn(run, run1, run', SameEntry, m);
  }

  lemma FromInterrupt(run: seq<Sys>, i: nat, m: nat) returns (run': seq<Sys>)
    requires IsRun(run) && At(run, i, Calling(VadInterrupt)) && Runs.Last(run).entry != Absent
    requires Runs.Last(run).listed && Runs.Last(run).task.turn < m
    ensures Tells(run, run', SameEntry, m)
  {
    var k, run1 := Runs.Last(run).task.turn, run;
    if HasOpenTurn(Runs.Last(run).task) {
      var told := Tell(SpeakingStopped(k), Tell(TurnInterrupt(k, k + 1), Calling(VadEnsure)));
      CoreOfInterrupt(told, k, k + 1, Calling(VadEnsure));
      run1 := Move(run, i, told, Called(Runs.Last(run), Interrupt));
      run1 := SendAll(run1, i, told);
      run' := FromEnsure(run1, i, m);
    } else {
      run1 := Move(run, i, Table(AsrLook), Called(Runs.Last(run), Interrupt));
      run' := FromAsrLook(run1, i, m);
    }
    TellsOn(run, run1, run', SameEntry, m);
  }

  lemma FromOpening(run: seq<Sys>, i: nat, m: nat) returns (run': seq<Sys>)
    requires IsRun(run) && At(run, i, Calling(OpeningTurn))
    requires Runs.Last(run).listed && Runs.Last(run).task.turn < m
    ensures Tells(run, run', SameEntry, m)
  {
    var run1 := run;
    if Runs.Last(run).task.turn + 1 < m {
      run1 := OpenUpTo(run, i, Calling(OpeningTurn), m - 1);
    }
    run1 := Activate(run1, i, Calling(OpeningTurn));
    var told := Tell(TurnStarted(m), Calling(RunRespond(m, false)));
    CoreOfTell(TurnStarted(m), Calling(RunRespond(m, false)));
    run1 := Move(run1, i, told, Called(Runs.Last(run1), StartTurn));
    run1 := SendAll(run1, i, told);
    run' := FromRespond(run1, i, m, false);
    TellsOn(run, run1, run', SameEntry, m);
  }

  lemma FromLive(run: seq<Sys>, m: nat) returns (run': seq<Sys>)
    requires IsRun(run) && Runs.Last(run).entry.Live?
    requires Runs.Last(run).listed && !Past(m, Runs.Last(run).task) && !BeingAnswered(m, Runs.Last(run).task)
    ensures Tells(run, run', SameEntry, m)
  {
    var i := |Runs.Last(run).threads|;
    var run1 := Spawn(run, Table(VadStart));
    run1 := Move(run1, i, Looking(VadLook), Runs.Last(run1));
    run' := FromVadLook(run1, i, m);
    TellsOn(run, run1, run', SameEntry, m);
  }

  lemma FromThread(run: seq<Sys>, i: nat, pc: Pc, m: nat) returns (run': seq<Sys>)
    requires IsRun(run) && At(run, i, pc) && Leads(Runs.Last(run).entry, Runs.Last(run).task, pc, m)
    requires Runs.Last(run).listed && !Past(m, Runs.Last(run).task)
    ensures Tells(run, run', SameEntry, m)
  {
    match pc {
      case Calling(c) =>
        match c {
          case Complete(_, mayEnd) => run' := FromComplete(run, i, m, mayEnd);
          case RunRespond(_, mayEnd) => run' := FromRespond(run, i, m, mayEnd);
          case OpeningTurn => run' := FromOpening(run, i, m);
          case VadInterrupt => run' := FromInterrupt(run, i, m);
          case VadEnsure => run' := FromEnsure(run, i, m);
        }
      case Table(_) => run' := FromAsrLook(run, i, m);
      case Looking(l) =>
        match l {
          case VadLook => run' := FromVadLook(run, i, m);
          case SpeechStart => run' := FromSpeechStart(run, i, m);
          case Stream(_) => run' := FromStream(run, i, m);
          case RunWork(_, mayEnd) => run' := FromWork(run, i, m, mayEnd);
        }
    }
  }

  lemma CompletesLater(run: seq<Sys>, m: nat) returns (run': seq<Sys>)
    requires IsRun(run) && CanComplete(Runs.Last(run), SameEntry, m)
    ensures Tells(run, run', SameEntry, m)
  {
    var s := Runs.Last(run);
    if s.entry.Live? && !BeingAnswered(m, s.task) {
      run' := FromLive(run, m);
    } else {
      var i :| 0 <= i < |s.threads| && Leads(s.entry, s.task, Core(s.threads[i]), m);
      var run1 := SendAll(run, i, s.threads[i]);
      run' := FromThread(run1, i, Core(s.threads[i]), m);
      TellsOn(run, run1, run', SameEntry, m);
    }
  }

  lemma TellOwed(run: seq<Sys>, i: nat, pc: Pc, m: nat) returns (run': seq<Sys>)
    requires IsRun(run) && At(run, i, pc) && Owed(pc, Completed(m)) > 0
    ensures Tells(run, run', SameEntry, m)
    decreases pc
  {
    var s := Runs.Last(run);
    var run1 := Move(run, i, pc.rest, s.(log := s.log + [pc.event]));
    run' := run1;
    if pc.event == TurnCompleted(m) {
      assert Runs.Last(run1).log[|s.log|..] == [TurnCompleted(m)];
    } else {
      run' := TellOwed(run1, i, pc.rest, m);
      TellsOn(run, run1, run', SameEntry, m);
    }
  }

  // Everything there is to follow.

  /** The session's entry is closed and made anew. */
  lemma Remake(run: seq<Sys>) returns (run': seq<Sys>)
    requires IsRun(run)
    ensures Runs.Continues(run, run', Init, Next) && Runs.Last(run').entry.Live?
    ensures Runs.Last(run').task == Runs.Last(run).task && Runs.Last(run').listed == Runs.Last(run).listed
    ensures Runs.Last(run).threads <= Runs.Last(run').threads
  {
    run' := run;
    var i := |Runs.Last(run).threads|;
    if Runs.Last(run).entry.Ending? {
      run' := Spawn(run', Table(CloseEntry(false)));
      run' := Move(run', i, Gone, Runs.Last(run').(entry := Absent));
      i := i + 1;
    }
    if Runs.Last(run').entry == Absent {
      var n := Runs.Last(run').entries;
      run' := Spawn(run', Table(MakeEntry(false)));
      run' := Move(run', i, Gone, Runs.Last(run').(entry := Live(n), entries := n + 1));
    }
  }

  lemma StillLeads(e: Entry, s: Sys, s': Sys, m: nat)
    requires s'.task == s.task && s.threads <= s'.threads && s'.entry.Live? && AnyLeads(e, s, m)
    ensures AnyLeads(s'.entry, s', m)
  {
    var i :| 0 <= i < |s.threads| && Leads(e, s.task, Core(s.threads[i]), m);
    assert Leads(s'.entry, s'.task, Core(s'.threads[i]), m);
  }

  lemma CompletesSomehow(run: seq<Sys>, scope: Scope, m: nat) returns (run': seq<Sys>)
    requires IsRun(run) && CanComplete(Runs.Last(run), scope, m)
    ensures Tells(run, run', scope, m)
  {
    if scope == SameEntry {
      run' := CompletesLater(run, m);
    } else {
      var run1 := Remake(run);
      if BeingAnswered(m, Runs.Last(run).task) {
        StillLeads(Live(0), Runs.Last(run), Runs.Last(run1), m);
      }
      run' := CompletesLater(run1, m);
      TellsOn(run, run1, run', AnyEntry, m);
    }
  }

  /** Exactly these completions can be told after any moment of any run: those that a goroutine owes, and
      those of the turns that can still be completed. */
  lemma FollowsExactly(run: seq<Sys>, scope: Scope, m: nat)
    requires IsRun(run)
    ensures (exists run' :: Tells(run, run', scope, m))
      <==> OwedByAll(Runs.Last(run).threads, Completed(m)) > 0 || CanComplete(Runs.Last(run), scope, m)
  {
    if run' :| Tells(run, run', scope, m) {
      OnlyTheseFollow(run, run', scope, m);
    }
    if OwedByAll(Runs.Last(run).threads, Completed(m)) > 0 {
      var i := TotalFrom(Runs.Last(run).threads, Owing(Completed(m)));
      var run' := TellOwed(run, i, Runs.Last(run).threads[i], m);
      assert Tells(run, run', scope, m);
    } else if CanComplete(Runs.Last(run), scope, m) {
      var run' := CompletesSomehow(run, scope, m);
    }
  }

  // Whether any can follow, read off the state.

  /** The goroutine leads to the completion of some turn. */
  predicate Alive(e: Entry, t: Task, pc: Pc) {
    match pc
    case Calling(Complete(k, _)) => !Past(k, t)
    case Calling(RunRespond(k, _)) => !Past(k, t) && !BeingAnswered(k, t)
    case Calling(OpeningTurn) => true
    case Calling(VadInterrupt) => e != Absent
    case Calling(VadEnsure) => e != Absent
    case Table(AsrLook) => e != Absent
    case Looking(VadLook) => e != Absent
    case Looking(SpeechStart) => true
    case Looking(Stream(k)) => !Past(k, t)
    case Looking(RunWork(k, _)) => !Past(k, t)
    case _ => false
  }

  /** The session is over; or its entry lets no speech in, and no goroutine that it let in, or that claimed
      the opening turn, is on its way, and no stream or run of a turn that is not over is alive. In the
      continuations in which further entries may be made, only the end of the session settles it. */
  predicate Settled(s: Sys, scope: Scope) {
    !s.listed
    || (scope == SameEntry && !s.entry.Live?
        && forall i | 0 <= i < |s.threads| :: !Alive(s.entry, s.task, Core(s.threads[i])))
  }

  lemma AliveExactly(e: Entry, t: Task, pc: Pc)
    ensures Alive(e, t, pc) <==> exists m: nat :: !Past(m, t) && Leads(e, t, pc, m)
  {
    if Alive(e, t, pc) {
      var m := match pc
        case Calling(Complete(k, _)) => k
        case Calling(RunRespond(k, _)) => k
        case Looking(Stream(k)) => k
        case Looking(RunWork(k, _)) => k
        case _ => t.turn + 1;
      assert !Past(m, t) && Leads(e, t, pc, m);
    }
  }

  lemma SettledExactly(s: Sys, scope: Scope)
    ensures Settled(s, scope) <==> forall m: nat :: !CanComplete(s, scope, m)
  {
    var e := Best(s, scope);
    if s.listed && e.Live? {
      assert CanComplete(s, scope, s.task.turn + 1);
    }
    if i :| 0 <= i < |s.threads| && Alive(e, s.task, Core(s.threads[i])) {
      AliveExactly(e, s.task, Core(s.threads[i]));
      var m: nat :| !Past(m, s.task) && Leads(e, s.task, Core(s.threads[i]), m);
      assert s.listed ==> CanComplete(s, scope, m);
    }
    if m: nat :| CanComplete(s, scope, m) {
      if !e.Live? {
        var i :| 0 <= i < |s.threads| && Leads(e, s.task, Core(s.threads[i]), m);
        AliveExactly(e, s.task, Core(s.threads[i]));
      }
    }
  }
}
