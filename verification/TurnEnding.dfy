/** The order of session.ending and turn.completed. docs/datachannel-protocol.md promises that
    session.ending comes after the turn.completed of the last turn. The end is scheduled at the end of
    a run (internal/app/bot/response_runtime.go), which looks neither whether it could complete its turn
    nor whether another turn is open. From then on no opening turn is claimed and no speech is let in
    (internal/app/bot/rtc_manager.go); but what was let in before may still complete a turn. */
module TurnEnding {
  import opened Counting
  import opened SessionTask
  import opened TurnProtocol
  import Runs

  /** The promised order, of the ending at p: what ends was completed before, and no completion follows. */
  ghost predicate InOrderAt(log: seq<Event>, p: nat)
    requires p < |log| && log[p].SessionEnding?
  {
    TurnCompleted(log[p].ended) in log[..p] && forall q | p < q < |log| :: !log[q].TurnCompleted?
  }

  predicate IsEnding(x: Event, k: nat, own: bool) {
    x.SessionEnding? && x.ended == k && x.own == own
  }

  predicate SendsEnding(s: Sys, s': Sys, k: nat, own: bool) {
    && |s'.log| == |s.log| + 1 && s'.log[..|s.log|] == s.log
    && IsEnding(s'.log[|s.log|], k, own)
  }

  lemma ToldIfIn(log: seq<Event>, k: nat)
    ensures Told(log, Completed(k)) > 0 <==> TurnCompleted(k) in log
  {
    if Told(log, Completed(k)) > 0 {
      var i := TotalFrom(log, Announcing(Completed(k)));
      assert log[i] == TurnCompleted(k);
    }
    if TurnCompleted(k) in log {
      var i :| 0 <= i < |log| && log[i] == TurnCompleted(k);
      TotalAtLeast(log, i, Announcing(Completed(k)));
    }
  }

  // Whether the run completed its turn itself.

  /** The guard of a completion. */
  predicate Completes(s: Sys, k: nat) {
    s.listed && k == s.task.turn && HasOpenTurn(s.task)
  }

  /** A run that goes on to schedule the end is marked as having completed its turn exactly if that was
      the open one at its CompleteTurn. */
  lemma MarkedByItsGuard(s: Sys, k: nat, s': Sys, pc': Pc, own: bool)
    requires ThreadStep(s, Calling(Complete(k, true)), s', pc')
    requires var end := Table(ScheduleEnd(k, own)); pc' == end || (pc'.Tell? && pc'.rest == end)
    ensures own <==> Completes(s, k)
    ensures own ==> pc'.Tell? && pc'.event == TurnCompleted(k)
  {
  }

  predicate SchedulesEnd(pc: Pc) {
    pc.Table? && pc.section.ScheduleEnd?
  }

  /** No end is scheduled or announced from here without a completion in between. */
  predicate NoEnd(pc: Pc) {
    match pc
    case Tell(x, rest) => !x.SessionEnding? && NoEnd(rest)
    case _ => !SchedulesEnd(pc)
  }

  /** A goroutine that will announce the end of a turn as completed has announced the completion, or is
      about to. */
  predicate Marked(pc: Pc, log: seq<Event>) {
    match pc
    case Table(t) => t.ScheduleEnd? && t.own ==> TurnCompleted(t.id) in log
    case Tell(x, rest) =>
      if x.SessionEnding? then (x.own ==> TurnCompleted(x.ended) in log) && NoEnd(rest)
      else NoEnd(rest) || (SchedulesEnd(rest) && x == TurnCompleted(rest.section.id))
    case _ => true
  }

  ghost predicate EndingsMarked(s: Sys) {
    && (forall i | 0 <= i < |s.threads| :: Marked(s.threads[i], s.log))
    && (forall p | 0 <= p < |s.log| && s.log[p].SessionEnding? && s.log[p].own ::
          TurnCompleted(s.log[p].ended) in s.log[..p])
  }

  lemma AfterInterruptNoEnd(pc: Pc, k: nat, next: nat, rest: Pc)
    requires AfterInterrupt(pc, k, next, rest) && NoEnd(rest)
    ensures NoEnd(pc)
  {
    assert NoEnd(pc.rest.rest);
    assert NoEnd(pc.rest);
  }

  lemma AfterMarked(c: Caller, turn: nat, reply: Reply, pc': Pc, log: seq<Event>)
    requires After(c, turn, reply, pc')
    requires c.Complete? && reply == Done ==> turn == c.id
    ensures Marked(pc', log)
  {
    if (c.VadInterrupt? || c.HintInterrupt?) && reply.Stopped? {
      AfterInterruptNoEnd(pc', reply.id, reply.next, if c.VadInterrupt? then Calling(VadEnsure) else Gone);
    } else if pc'.Tell? && pc'.rest.Tell? {
      assert NoEnd(pc'.rest.rest);
    }
  }

  lemma StepMarked(s: Sys, pc: Pc, s': Sys, pc': Pc)
    requires ThreadStep(s, pc, s', pc') && Marked(pc, s.log)
    ensures Marked(pc', s'.log)
    ensures s'.log == if pc.Tell? then s.log + [pc.event] else s.log
  {
    if pc.Calling? && (LooksUp(pc.caller) ==> s.listed) {
      AfterMarked(pc.caller, s.task.turn, Apply(s.task, CallOf(pc.caller)).1, pc', s.log);
    }
  }

  lemma MoveKeepsMarks(s: Sys, i: int, pc': Pc, m: Sys)
    requires EndingsMarked(s) && StepOf(s, i, pc', m)
    ensures EndingsMarked(m.(threads := s.threads[i := pc']))
  {
    var s' := m.(threads := s.threads[i := pc']);
    StepMarked(s, s.threads[i], m, pc');
    forall j | 0 <= j < |s'.threads| ensures Marked(s'.threads[j], s'.log) {
      if j != i {
        assert Marked(s.threads[j], s.log);
      }
    }
    forall p | 0 <= p < |s'.log| && s'.log[p].SessionEnding? && s'.log[p].own
      ensures TurnCompleted(s'.log[p].ended) in s'.log[..p]
    {
      assert s'.log[..|s.log|] == s.log;
      if p < |s.log| {
        assert s'.log[..p] == s.log[..p];
      }
    }
  }

  lemma NextKeepsMarks(s: Sys, s': Sys)
    requires EndingsMarked(s) && Next(s, s')
    ensures EndingsMarked(s')
  {
    if pc :| Starts(pc) && s' == s.(threads := s.threads + [pc]) {
      assert Marked(pc, s.log);
    } else {
      var i, pc', m: Sys :| StepOf(s, i, pc', m) && s' == m.(threads := s.threads[i := pc']);
      MoveKeepsMarks(s, i, pc', m);
    }
  }

  lemma RunKeepsMarks(run: seq<Sys>, i: nat)
    requires IsRun(run) && i < |run|
    ensures EndingsMarked(run[i])
  {
    forall s, s' | EndingsMarked(s) && Next(s, s') ensures EndingsMarked(s') {
      NextKeepsMarks(s, s');
    }
    Runs.Invariant(run, i, Init, Next, EndingsMarked);
  }

  /** The goroutine is on its way to announce the end. */
  predicate Pending(pc: Pc, k: nat, own: bool) {
    || pc == Table(ScheduleEnd(k, own))
    || (pc.Tell? && (IsEnding(pc.event, k, own) || pc.rest == Table(ScheduleEnd(k, own))))
  }

  ghost predicate Underway(s: Sys, k: nat, own: bool) {
    || (exists p :: 0 <= p < |s.log| && IsEnding(s.log[p], k, own))
    || (exists t :: 0 <= t < |s.threads| && Pending(s.threads[t], k, own))
  }

  /** In this step the run of turn k calls CompleteTurn and goes on to schedule the end. */
  ghost predicate Decides(s: Sys, s': Sys, k: nat, own: bool) {
    && (exists t :: 0 <= t < |s.threads| == |s'.threads|
                    && s.threads[t] == Calling(Complete(k, true)) && Pending(s'.threads[t], k, own))
    && (own <==> Completes(s, k))
  }

  lemma NoEndIsNotPending(pc: Pc, k: nat, own: bool)
    requires NoEnd(pc)
    ensures !Pending(pc, k, own)
  {
  }

  lemma PendingFromCompletion(s: Sys, pc: Pc, s': Sys, pc': Pc, k: nat, own: bool)
    requires ThreadStep(s, pc, s', pc') && Marked(pc, s.log) && Pending(pc', k, own) && !Pending(pc, k, own)
    ensures pc == Calling(Complete(k, true)) && (own <==> Completes(s, k))
  {
    if pc.Calling? && pc.caller.Complete? && pc.caller.mayEnd {
      MarkedByItsGuard(s, pc.caller.id, s', pc', own);
    } else if pc.Tell? && NoEnd(pc.rest) {
      NoEndIsNotPending(pc.rest, k, own);
    } else if pc.Calling? && (LooksUp(pc.caller) ==> s.listed) {
      CallNotPending(pc.caller, s.task.turn, Apply(s.task, CallOf(pc.caller)).1, pc', k, own);
    }
  }

  lemma CallNotPending(c: Caller, turn: nat, reply: Reply, pc': Pc, k: nat, own: bool)
    requires After(c, turn, reply, pc') && !(c.Complete? && c.mayEnd)
    ensures !Pending(pc', k, own)
  {
  }

  lemma MoveUnderway(s: Sys, i: int, pc': Pc, m: Sys, k: nat, own: bool)
    requires EndingsMarked(s) && StepOf(s, i, pc', m) && Underway(m.(threads := s.threads[i := pc']), k, own)
    ensures Underway(s, k, own) || Decides(s, m.(threads := s.threads[i := pc']), k, own)
  {
    var s' := m.(threads := s.threads[i := pc']);
    StepMarked(s, s.threads[i], m, pc');
    if p :| 0 <= p < |s'.log| && IsEnding(s'.log[p], k, own) {
      if p < |s.log| {
        assert IsEnding(s.log[p], k, own);
      } else {
        assert Pending(s.threads[i], k, own);
      }
    } else {
      var t :| 0 <= t < |s'.threads| && Pending(s'.threads[t], k, own);
      if t == i && !Pending(s.threads[i], k, own) {
        PendingFromCompletion(s, s.threads[i], m, pc', k, own);
      }
    }
  }

  lemma UnderwayFromDecision(s: Sys, s': Sys, k: nat, own: bool)
    requires EndingsMarked(s) && Next(s, s') && Underway(s', k, own)
    ensures Underway(s, k, own) || Decides(s, s', k, own)
  {
    if pc :| Starts(pc) && s' == s.(threads := s.threads + [pc]) {
    } else {
      var i, pc', m: Sys :| StepOf(s, i, pc', m) && s' == m.(threads := s.threads[i := pc']);
      MoveUnderway(s, i, pc', m, k, own);
    }
  }

  lemma {:induction false} EndingWasDecided(run: seq<Sys>, i: nat, k: nat, own: bool) returns (c: nat)
    requires IsRun(run) && i < |run| && Underway(run[i], k, own)
    ensures 0 < c <= i && Decides(run[c - 1], run[c], k, own)
  {
    if i > 0 {
      RunKeepsMarks(run, i - 1);
      assert Runs.StepAt(run, i, Next);
      UnderwayFromDecision(run[i - 1], run[i], k, own);
      c := i;
      if Underway(run[i - 1], k, own) {
        c := EndingWasDecided(run, i - 1, k, own);
      }
    }
  }

  /** When the end is announced, the completion of the turn has been announced exactly if the turn is
      completed and nobody has yet to say so. If the run completed its turn itself, which it did exactly
      if that was the open one at its CompleteTurn, it has said so. */
  lemma EndingFollowsCompletion(run: seq<Sys>, i: nat, k: nat, own: bool)
    requires IsRun(run) && 0 < i < |run| && SendsEnding(run[i - 1], run[i], k, own)
    ensures var s := run[i - 1];
      && (TurnCompleted(k) in s.log
          <==> Happened(s.effects, Completed(k)) == 1 && OwedByAll(s.threads, Completed(k)) == 0)
      && (own ==> TurnCompleted(k) in s.log)
    ensures exists c :: 0 < c < i && Decides(run[c - 1], run[c], k, own)
  {
    var s, s' := run[i - 1], run[i];
    RunKeepsMarks(run, i);
    RunKeepsInv(run, i - 1);
    assert Conserved(s, Completed(k));
    TurnProtocolIsSafe(run, i - 1, k, 0);
    ToldIfIn(s.log, k);
    EndingStep(run, i, k, own);
    var c := EndingWasDecided(run, i - 1, k, own);
  }

  lemma EndingStep(run: seq<Sys>, i: nat, k: nat, own: bool)
    requires IsRun(run) && 0 < i < |run| && SendsEnding(run[i - 1], run[i], k, own)
    ensures Underway(run[i - 1], k, own)
  {
    var s, s' := run[i - 1], run[i];
    assert Runs.StepAt(run, i, Next);
    var t, pc', m: Sys :| StepOf(s, t, pc', m) && s' == m.(threads := s.threads[t := pc']);
    RunKeepsMarks(run, i - 1);
    StepMarked(s, s.threads[t], m, pc');
    assert Pending(s.threads[t], k, own);
  }

}
