/** What the session task (internal/session/task.go) answers to each call, told by the calls made before it and
    by what became of the turns, without its state. */
module SessionAnswers {
  import opened SessionTask

  /** What the task answers after these calls. */
  function AnswerAfter(calls: seq<Call>, c: Call): Reply {
    Apply(RunCalls(NEW_TASK, calls), c).1
  }

  /** Turn k has been allotted and is not closed. */
  predicate IsOpen(calls: seq<Call>, k: nat) {
    PhaseOf(k, History(calls)) == Open || PhaseOf(k, History(calls)) == Answered
  }

  /** The session became active before it was ended, if it was. */
  predicate Activated(calls: seq<Call>) {
    exists i :: 0 <= i < |calls| && calls[i] == MarkActive && End !in calls[..i]
  }

  /** The session is active, and no turn is open. */
  ghost predicate Idle(calls: seq<Call>) {
    Activated(calls) && End !in calls && forall k: nat :: !IsOpen(calls, k)
  }

  /** The states of a session that is not at work, told by the calls. */
  ghost predicate StateTold(calls: seq<Call>, t: Task) {
    && (t.state == Closed <==> End in calls)
    && t.state != Closing
    && (t.state == Created <==> End !in calls && MarkActive !in calls && BeginNegotiation !in calls)
    && (t.state == Negotiating <==> End !in calls && MarkActive !in calls && BeginNegotiation in calls)
  }

  lemma CallTold(calls: seq<Call>, t: Task, c: Call)
    requires StateTold(calls, t)
    ensures StateTold(calls + [c], Apply(t, c).0)
  {
    assert forall x | x in calls + [c] :: x in calls || x == c;
    assert forall x | x in calls :: x in calls + [c];
    assert (calls + [c])[|calls|] == c;
  }

  lemma {:induction false} EveryStateIsTold(calls: seq<Call>)
    ensures StateTold(calls, RunCalls(NEW_TASK, calls))
  {
    if calls != [] {
      var before, c := calls[..|calls| - 1], calls[|calls| - 1];
      EveryStateIsTold(before);
      CallTold(before, RunCalls(NEW_TASK, before), c);
      assert calls == before + [c];
    }
  }

  lemma ActivatedUnlessEnded(calls: seq<Call>)
    requires End !in calls
    ensures Activated(calls) <==> MarkActive in calls
  {
    if MarkActive in calls {
      var i :| 0 <= i < |calls| && calls[i] == MarkActive;
      assert forall x | x in calls[..i] :: x in calls;
    }
  }

  /** No turn but the current one is open, and it is while the task is at work on it. */
  lemma OpenIsCurrent(calls: seq<Call>, k: nat)
    ensures var t := RunCalls(NEW_TASK, calls);
      && (IsOpen(calls, k) <==> HasOpenTurn(t) && k == t.turn)
      && (PhaseOf(k, History(calls)) == Open <==> t.state == Processing && k == t.turn)
  {
    EveryHistoryIsExplained(calls);
    assert PhaseOf(k, History(calls)) == PhaseNow(k, RunCalls(NEW_TASK, calls));
  }

  lemma NoneOpenExactly(calls: seq<Call>)
    ensures (forall k: nat :: !IsOpen(calls, k)) <==> !HasOpenTurn(RunCalls(NEW_TASK, calls))
  {
    var t := RunCalls(NEW_TASK, calls);
    forall k: nat ensures IsOpen(calls, k) <==> HasOpenTurn(t) && k == t.turn {
      OpenIsCurrent(calls, k);
    }
    assert IsOpen(calls, t.turn) <==> HasOpenTurn(t);
  }

  lemma IdleIsActive(calls: seq<Call>)
    ensures Idle(calls) <==> RunCalls(NEW_TASK, calls).state == Active
  {
    var t := RunCalls(NEW_TASK, calls);
    EveryStateIsTold(calls);
    if End !in calls {
      ActivatedUnlessEnded(calls);
    }
    NoneOpenExactly(calls);
  }

  /** After any calls: turn k can be answered exactly while it is open and has not been, and completed,
      interrupted and joined exactly while it is open; and that is what the answers say. */
  lemma TurnAnswersExactly(calls: seq<Call>, k: nat)
    ensures AnswerAfter(calls, StartResponse(k)) == if PhaseOf(k, History(calls)) == Open then Done else Refused
    ensures AnswerAfter(calls, CompleteTurn(k)) == if IsOpen(calls, k) then Done else Refused
    ensures AnswerAfter(calls, Interrupt) == Stopped(k, k + 1) <==> IsOpen(calls, k)
    ensures AnswerAfter(calls, EnsureTurn) == Turn(k, false) <==> IsOpen(calls, k)
  {
    OpenIsCurrent(calls, k);
  }

  /** After any calls: a turn is allotted, the next in number, exactly while the session is active and none is
      open; with none open nothing is interrupted, and nothing joined unless a turn is allotted. */
  lemma AllotsExactly(calls: seq<Call>)
    ensures var next := |Allotments(History(calls))| + 1;
      && AnswerAfter(calls, StartTurn) == (if Idle(calls) then Turn(next, true) else Refused)
      && (AnswerAfter(calls, EnsureTurn) == Turn(next, true) <==> Idle(calls))
    ensures AnswerAfter(calls, EnsureTurn) == Refused <==> !Idle(calls) && forall k: nat :: !IsOpen(calls, k)
    ensures AnswerAfter(calls, Interrupt) == Refused <==> forall k: nat :: !IsOpen(calls, k)
  {
    EveryHistoryIsExplained(calls);
    IdleIsActive(calls);
    NoneOpenExactly(calls);
  }

  /** Negotiation begins only first; the session can be made active unless it is idle or ended, so even with a
      turn open; and it can always be ended. */
  lemma SessionAnswersExactly(calls: seq<Call>)
    ensures AnswerAfter(calls, BeginNegotiation) ==
      if BeginNegotiation in calls || MarkActive in calls || End in calls then Refused else Done
    ensures AnswerAfter(calls, MarkActive) == if Idle(calls) || End in calls then Refused else Done
    ensures AnswerAfter(calls, End) == Done
  {
    EveryStateIsTold(calls);
    IdleIsActive(calls);
  }

  lemma EffectOfAnswer(t: Task, c: Call)
    requires t.state != Closing
    ensures match Apply(t, c).1
      case Refused => EffectOf(t, c) == Nothing
      case Turn(k, created) => EffectOf(t, c) == if created then Allotted(k) else Nothing
      case Stopped(k, _) => EffectOf(t, c) == Interrupted(k)
      case Done =>
        match c
        case StartResponse(k) => k >= 0 && EffectOf(t, c) == Answering(k)
        case CompleteTurn(k) => k >= 0 && EffectOf(t, c) == Completed(k)
        case BeginNegotiation => EffectOf(t, c) == Nothing
        case End => EffectOf(t, c) == if t.state == Closed then Nothing else Ended
        case MarkActive => EffectOf(t, c) == if HasOpenTurn(t) then Abandoned(t.turn) else Nothing
        case _ => false
  {
  }

  lemma HistoryMore(calls: seq<Call>, c: Call)
    ensures History(calls + [c]) == History(calls) + [EffectOf(RunCalls(NEW_TASK, calls), c)]
  {
    assert (calls + [c])[..|calls|] == calls;
  }

  /** What a call does to a turn or the session is what its answer says. */
  lemma EffectsAreAnswered(calls: seq<Call>, c: Call)
    ensures var effect := History(calls + [c])[|calls|];
      match AnswerAfter(calls, c)
      case Refused => effect == Nothing
      case Turn(k, created) => effect == if created then Allotted(k) else Nothing
      case Stopped(k, _) => effect == Interrupted(k)
      case Done =>
        match c
        case StartResponse(k) => k >= 0 && effect == Answering(k)
        case CompleteTurn(k) => k >= 0 && effect == Completed(k)
        case BeginNegotiation => effect == Nothing
        case End => effect == if End in calls then Nothing else Ended
        case MarkActive =>
          if effect.Abandoned? then IsOpen(calls, effect.id)
          else effect == Nothing && forall k: nat :: !IsOpen(calls, k)
        case _ => false
  {
    var t := RunCalls(NEW_TASK, calls);
    HistoryMore(calls, c);
    EveryStateIsTold(calls);
    EffectOfAnswer(t, c);
    if c == MarkActive {
      NoneOpenExactly(calls);
      OpenIsCurrent(calls, t.turn);
    }
  }
}
