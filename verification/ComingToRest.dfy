/** Every goroutine of a call comes to its end (internal/app/bot/control_runtime.go, response_runtime.go, server.go,
    rtc_manager.go): it can always go on, whatever the others have done, and it cannot go on for ever. */
module ComingToRest {
  import opened Counting
  import opened SessionTask
  import opened TurnProtocol
  import Runs

  /** How many steps a goroutine may still take at most. */
  function Rank(pc: Pc): nat {
    match pc
    case Gone => 0
    case Tell(_, rest) => 1 + Rank(rest)
    case Calling(c) => CallerRank(c)
    case Table(t) => SectionRank(t)
    case Looking(l) => LookRank(l)
  }

  function CallerRank(c: Caller): nat {
    match c
    case Negotiate => 2
    case NewActive => 1
    case ChannelOpen => 16
    case OpeningTurn => 12
    case VadInterrupt => 21
    case VadEnsure => 17
    case HintEnsure => 8
    case HintRespond(_) => 6
    case HintInterrupt => 4
    case HttpStartTurn => 3
    case HttpRespond(_) => 2
    case HttpInterrupt => 2
    case RunRespond(_, mayEnd) => 2 + CompleteRank(mayEnd)
    case Complete(_, mayEnd) => CompleteRank(mayEnd)
    case EndSession => 1
  }

  function CompleteRank(mayEnd: bool): nat {
    if mayEnd then 6 else 2
  }

  function SectionRank(t: Section): nat {
    match t
    case MakeEntry(ready) => if ready then 14 else 1
    case TryOpening => 13
    case VadStart => 23
    case AsrLook => 14
    case ScheduleEnd(_, _) => 4
    case CloseEntry(end) => if end then 2 else 1
  }

  function LookRank(l: Look): nat {
    match l
    case VadLook => 22
    case SpeechStart => 11
    case Stream(_) => 10
    case RunWork(_, mayEnd) => 1 + CompleteRank(mayEnd)
  }

  lemma CallStepsDown(c: Caller, turn: nat, reply: Reply, pc': Pc)
    requires After(c, turn, reply, pc')
    ensures Rank(pc') < CallerRank(c)
  {
    if pc'.Tell? && pc'.rest.Tell? && pc'.rest.rest.Tell? {
      assert Rank(pc') == 3 + Rank(pc'.rest.rest.rest);
    }
  }

  /** Every step takes a goroutine nearer to its end. */
  lemma StepsDown(s: Sys, pc: Pc, s': Sys, pc': Pc)
    requires ThreadStep(s, pc, s', pc')
    ensures Rank(pc') < Rank(pc)
  {
    if pc.Calling? && !(LooksUp(pc.caller) && !s.listed) {
      CallStepsDown(pc.caller, s.task.turn, Apply(s.task, CallOf(pc.caller)).1, pc');
    }
  }

  /** One way on after a call: that of the barge-in and of the end of the session, where there is a choice. */
  function Onward(c: Caller, turn: nat, reply: Reply): Pc {
    match (c, reply)
    case (Negotiate, _) => Calling(NewActive)
    case (ChannelOpen, _) => Tell(SessionReady, Table(MakeEntry(true)))
    case (OpeningTurn, Turn(k, _)) => Tell(TurnStarted(k), Calling(RunRespond(k, false)))
    case (VadInterrupt, Stopped(k, next)) => Tell(SpeakingStopped(k), Tell(TurnInterrupt(k, next), Calling(VadEnsure)))
    case (VadInterrupt, _) => Table(AsrLook)
    case (VadEnsure, Turn(k, created)) =>
      if created then Tell(TurnStarted(k), Tell(VadStarted(k), Table(AsrLook))) else Tell(VadStarted(k), Table(AsrLook))
    case (VadEnsure, _) => Table(AsrLook)
    case (HintEnsure, Turn(k, created)) =>
      if created then Tell(TurnStarted(k), Calling(HintRespond(k))) else Calling(HintInterrupt)
    case (HintRespond(k), Done) => Tell(SpeakingStarted(turn), Calling(HintInterrupt))
    case (HintInterrupt, Stopped(k, next)) => Tell(SpeakingStopped(k), Tell(TurnInterrupt(k, next), Gone))
    case (HttpStartTurn, Turn(k, _)) => Calling(HttpRespond(k))
    case (HttpRespond(k), _) => Tell(HttpTurnReply(k), Gone)
    case (HttpInterrupt, Stopped(k, next)) => Tell(HttpInterruptReply(k, next), Gone)
    case (RunRespond(k, mayEnd), Done) => Looking(RunWork(k, mayEnd))
    case (Complete(k, mayEnd), Done) => Tell(TurnCompleted(turn), if mayEnd then Table(ScheduleEnd(k, true)) else Gone)
    case (Complete(k, mayEnd), _) => if mayEnd then Table(ScheduleEnd(k, false)) else Gone
    case _ => Gone
  }

  lemma OnwardGoes(c: Caller, turn: nat, reply: Reply)
    ensures After(c, turn, reply, Onward(c, turn, reply))
  {
  }

  /** A goroutine that is not gone can always take a step. */
  lemma NobodyIsStuck(s: Sys, pc: Pc) returns (s': Sys, pc': Pc)
    requires pc != Gone
    ensures ThreadStep(s, pc, s', pc')
  {
    match pc {
      case Tell(e, rest) => s', pc' := s.(log := s.log + [e]), rest;
      case Calling(c) =>
        if LooksUp(c) && !s.listed {
          s', pc' := s, Gone;
        } else {
          s', pc' := Called(s, CallOf(c)), Onward(c, s.task.turn, Apply(s.task, CallOf(c)).1);
          OnwardGoes(c, s.task.turn, Apply(s.task, CallOf(c)).1);
        }
      case Table(t) => s', pc' := SectionPassed(s, t);
      case Looking(l) =>
        s', pc' := s, LooksOn(s, l);
    }
  }

  function LooksOn(s: Sys, l: Look): Pc {
    match l
    case VadLook =>
      if !s.listed then Table(AsrLook)
      else if s.task.state == Responding then Calling(VadInterrupt)
      else Calling(VadEnsure)
    case SpeechStart => if s.listed && s.task.turn > 0 then Looking(Stream(s.task.turn)) else Gone
    case Stream(k) => Calling(RunRespond(k, true))
    case RunWork(k, mayEnd) => Calling(Complete(k, mayEnd))
  }

  lemma SectionPassed(s: Sys, t: Section) returns (s': Sys, pc': Pc)
    ensures TableStep(s, t, s', pc')
  {
    match t {
      case MakeEntry(ready) =>
        s' := if s.entry == Absent then s.(entry := Live(s.entries), entries := s.entries + 1) else s;
        pc' := if ready then Table(TryOpening) else Gone;
      case TryOpening => s', pc' := s, if s.entry.Live? then Calling(OpeningTurn) else Gone;
      case VadStart => s', pc' := s, if s.entry.Ending? then Gone else Looking(VadLook);
      case AsrLook => s', pc' := s, if s.entry != Absent then Looking(SpeechStart) else Gone;
      case ScheduleEnd(k, own) =>
        if s.entry.Live? {
          s' := s.(entry := Ending(s.entry.id));
          pc' := Tell(SessionEnding(k, own, s.entry.id), Table(CloseEntry(true)));
        } else {
          s', pc' := s, Gone;
        }
      case CloseEntry(end) => s', pc' := s.(entry := Absent), if end then Calling(EndSession) else Gone;
    }
  }

  /** Goroutines come from the HTTP handlers, the control channel, the peer connection and the endpointer. */
  lemma StartsExactly(pc: Pc)
    ensures Starts(pc) <==> pc in [
      Calling(Negotiate), Calling(HttpStartTurn), Calling(HttpInterrupt), Calling(EndSession),
      Calling(ChannelOpen), Calling(HintEnsure), Table(TryOpening),
      Table(MakeEntry(false)), Table(CloseEntry(false)), Table(CloseEntry(true)), Table(VadStart)]
  {
  }

  // A whole call.

  /** Steps that all goroutines together may still take, if no other is started. */
  function Remaining(s: Sys): nat {
    Total(s.threads, Rank)
  }

  lemma StepRemains(s: Sys, s': Sys)
    requires Next(s, s') && |s'.threads| == |s.threads|
    ensures Remaining(s') < Remaining(s)
  {
    var i, pc', m: Sys :| StepOf(s, i, pc', m) && s' == m.(threads := s.threads[i := pc']);
    StepsDown(s, s.threads[i], m, pc');
    TotalMove(s.threads, i, pc', Rank);
  }

  lemma ThreadsStay(s: Sys, s': Sys)
    requires Next(s, s')
    ensures |s.threads| <= |s'.threads|
  {
  }

  lemma {:induction false} ThreadsGrow(run: seq<Sys>, i: nat, j: nat)
    requires IsRun(run) && i <= j < |run|
    ensures |run[i].threads| <= |run[j].threads|
  {
    if i < j {
      ThreadsGrow(run, i, j - 1);
      assert Runs.StepAt(run, j, Next);
      ThreadsStay(run[j - 1], run[j]);
    }
  }

  /** As long as no goroutine is started, a call has only so many steps left. */
  lemma {:induction false} StepsAreLimited(run: seq<Sys>, i: nat, j: nat)
    requires IsRun(run) && i <= j < |run| && |run[i].threads| == |run[j].threads|
    ensures Remaining(run[j]) + (j - i) <= Remaining(run[i])
  {
    if i < j {
      ThreadsGrow(run, i, j - 1);
      ThreadsGrow(run, j - 1, j);
      StepsAreLimited(run, i, j - 1);
      assert Runs.StepAt(run, j, Next);
      StepRemains(run[j - 1], run[j]);
    }
  }

  /** Every goroutine is gone. */
  ghost predicate Quiet(s: Sys) {
    forall i | 0 <= i < |s.threads| :: s.threads[i] == Gone
  }

  lemma QuietExactly(s: Sys)
    ensures Quiet(s) <==> Remaining(s) == 0
  {
    if Remaining(s) > 0 {
      var i := TotalFrom(s.threads, Rank);
      assert s.threads[i] != Gone;
    }
    forall i | 0 <= i < |s.threads| ensures Rank(s.threads[i]) <= Remaining(s) {
      TotalAtLeast(s.threads, i, Rank);
    }
  }

  /** Every call can come to rest, from wherever it is. */
  lemma CanComeToRest(run: seq<Sys>) returns (run': seq<Sys>)
    requires IsRun(run)
    ensures Runs.Continues(run, run', Init, Next) && Quiet(Runs.Last(run'))
    ensures |Runs.Last(run').threads| == |Runs.Last(run).threads|
    decreases Remaining(Runs.Last(run))
  {
    var s := Runs.Last(run);
    QuietExactly(s);
    run' := run;
    if !Quiet(s) {
      var i := TotalFrom(s.threads, Rank);
      var m, pc' := NobodyIsStuck(s, s.threads[i]);
      var s' := m.(threads := s.threads[i := pc']);
      assert StepOf(s, i, pc', m);
      run' := Runs.Go(run, s', Init, Next);
      StepRemains(s, s');
      run' := CanComeToRest(run');
    }
  }

  /** A call in which nobody is started any more comes to rest, and stops nowhere else: as long as somebody is not
      gone there is a next step, and there are at most `Remaining` of them. */
  lemma ComesToRest(run: seq<Sys>, i: nat, j: nat)
    requires IsRun(run) && i <= j < |run| && |run[i].threads| == |run[j].threads|
    ensures j - i <= Remaining(run[i])
    ensures Quiet(run[j]) || exists s :: Next(run[j], s) && |s.threads| == |run[i].threads|
  {
    StepsAreLimited(run, i, j);
    var s := run[j];
    if !Quiet(s) {
      var t :| 0 <= t < |s.threads| && s.threads[t] != Gone;
      var m, pc' := NobodyIsStuck(s, s.threads[t]);
      assert StepOf(s, t, pc', m);
      var s' := m.(threads := s.threads[t := pc']);
      assert Next(s, s') && |s'.threads| == |s.threads|;
    }
  }
}
