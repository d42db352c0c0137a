/** What each goroutine of a call does when it meets no step of another: what it sends, in order, and what becomes
    of the task and the session's entry (internal/app/bot/control_runtime.go, response_runtime.go, server.go,
    rtc_manager.go). */
module HandlersAlone {
  import opened SessionTask
  import opened TurnProtocol
  import ComingToRest

  /** What is shared, and the goroutine's own program counter. */
  datatype Local = Local(s: Sys, pc: Pc)

  ghost predicate StepsAlone(x: Local, y: Local) {
    ThreadStep(x.s, x.pc, y.s, y.pc)
  }

  /** A goroutine runs alone, from its first state on to its end. */
  ghost predicate Alone(path: seq<Local>) {
    && path != [] && path[|path| - 1].pc == Gone
    && forall i | 0 < i < |path| :: StepsAlone(path[i - 1], path[i])
  }

  /** The messages a goroutine sends next. */
  function Messages(pc: Pc): seq<Event> {
    match pc
    case Tell(x, rest) => [x] + Messages(rest)
    case _ => []
  }

  function Then(pc: Pc): Pc {
    match pc
    case Tell(_, rest) => Then(rest)
    case _ => pc
  }

  /** Every goroutine has such a path, from whatever state it is alone in. */
  lemma AloneItEnds(s: Sys, pc: Pc) returns (path: seq<Local>)
    ensures Alone(path) && path[0] == Local(s, pc)
    decreases ComingToRest.Rank(pc)
  {
    path := [Local(s, pc)];
    if pc != Gone {
      var s', pc' := ComingToRest.NobodyIsStuck(s, pc);
      ComingToRest.StepsDown(s, pc, s', pc');
      var rest := AloneItEnds(s', pc');
      path := path + rest;
      forall i | 0 < i < |path| ensures StepsAlone(path[i - 1], path[i]) {
        assert i > 1 ==> StepsAlone(rest[i - 2], rest[i - 1]);
      }
    }
  }

  lemma NextAlone(path: seq<Local>, i: nat)
    requires Alone(path) && i < |path| && path[i].pc != Gone
    ensures i + 1 < |path| && ThreadStep(path[i].s, path[i].pc, path[i + 1].s, path[i + 1].pc)
  {
    assert i + 1 < |path| ==> StepsAlone(path[i], path[i + 1]);
  }

  lemma {:induction false} Sends(path: seq<Local>, i: nat) returns (j: nat)
    requires Alone(path) && i < |path|
    ensures i <= j < |path| && path[j].pc == Then(path[i].pc)
    ensures path[j].s == path[i].s.(log := path[i].s.log + Messages(path[i].pc))
    decreases path[i].pc
  {
    j := i;
    if path[i].pc.Tell? {
      NextAlone(path, i);
      j := Sends(path, i + 1);
    } else {
      assert path[i].s.log + [] == path[i].s.log;
    }
  }

  /** One step, and the messages after it. */
  lemma StepAndSend(path: seq<Local>, i: nat) returns (j: nat, s: Sys, pc: Pc)
    requires Alone(path) && i < |path| && path[i].pc != Gone
    ensures i < j < |path| && ThreadStep(path[i].s, path[i].pc, s, pc)
    ensures path[j] == Local(s.(log := s.log + Messages(pc)), Then(pc))
  {
    NextAlone(path, i);
    s, pc := path[i + 1].s, path[i + 1].pc;
    j := Sends(path, i + 1);
  }

  lemma AtEnd(path: seq<Local>, i: nat)
    requires Alone(path) && i < |path| && path[i].pc == Gone
    ensures i == |path| - 1
  {
    assert i + 1 < |path| ==> StepsAlone(path[i], path[i + 1]);
  }

  /** The messages of a barge-in: the two of the interruption, and the stop that cancelling may add. */
  predicate BargesIn(events: seq<Event>, k: nat) {
    || events == [SpeakingStopped(k), TurnInterrupt(k, k + 1)]
    || (|events| == 3 && events[..2] == [SpeakingStopped(k), TurnInterrupt(k, k + 1)] && events[2].SpeakingStopped?)
  }

  lemma InterruptMessages(pc: Pc, k: nat, rest: Pc)
    requires AfterInterrupt(pc, k, k + 1, rest) && !rest.Tell?
    ensures BargesIn(Messages(pc), k) && Then(pc) == rest
  {
    var last := pc.rest.rest;
    assert Messages(pc.rest) == [TurnInterrupt(k, k + 1)] + Messages(last);
    assert Messages(pc) == [SpeakingStopped(k)] + Messages(pc.rest);
    if last != rest {
      assert Messages(last) == [last.event] + Messages(rest);
      assert Then(last) == Then(rest);
    }
    assert Then(pc) == Then(pc.rest) == Then(last);
  }

  // The client's hint.

  /** A hint that finds turn k open interrupts it, whether it is being answered or not, and says so. */
  lemma HintInterruptsOpenTurn(path: seq<Local>)
    requires Alone(path) && path[0].pc == Calling(HintEnsure) && path[0].s.listed && HasOpenTurn(path[0].s.task)
    ensures var s, t := path[0].s, path[|path| - 1].s;
      && t.task == Task(Active, s.task.turn)
      && t.effects == s.effects + [Nothing, Interrupted(s.task.turn)]
      && s.log <= t.log && BargesIn(t.log[|s.log|..], s.task.turn)
  {
    var k := path[0].s.task.turn;
    var j, s1, pc1 := StepAndSend(path, 0);
    var e, s2, pc2 := StepAndSend(path, j);
    InterruptMessages(pc2, k, Gone);
    AtEnd(path, e);
  }

  lemma TellOne(x: Event, rest: Pc)
    requires !rest.Tell?
    ensures Messages(Tell(x, rest)) == [x] && Then(Tell(x, rest)) == rest
  {
    assert Messages(rest) == [];
  }

  lemma TellTwo(x: Event, y: Event, rest: Pc)
    requires !rest.Tell?
    ensures Messages(Tell(x, Tell(y, rest))) == [x, y] && Then(Tell(x, Tell(y, rest))) == rest
  {
    TellOne(y, rest);
  }

  lemma HintAnswers(path: seq<Local>) returns (j: nat)
    requires Alone(path) && path[0].pc == Calling(HintEnsure) && path[0].s.listed && path[0].s.task.state == Active
    ensures j < |path| && path[j].pc == Calling(HintInterrupt)
    ensures var s, t, k := path[0].s, path[j].s, path[0].s.task.turn + 1;
      && t.task == Task(Responding, k) && t.effects == s.effects + [Allotted(k)] + [Answering(k)]
      && t.log == s.log + [TurnStarted(k)] + [SpeakingStarted(k)]
  {
    var k := path[0].s.task.turn + 1;
    var i, s1, pc1 := StepAndSend(path, 0);
    TellOne(TurnStarted(k), Calling(HintRespond(k)));
    var s2, pc2;
    j, s2, pc2 := StepAndSend(path, i);
    TellOne(SpeakingStarted(k), Calling(HintInterrupt));
  }

  /** A hint that finds the session active starts a turn, answers it and interrupts it at once. */
  lemma HintWithoutTurn(path: seq<Local>)
    requires Alone(path) && path[0].pc == Calling(HintEnsure) && path[0].s.listed && path[0].s.task.state == Active
    ensures var s, t, k := path[0].s, path[|path| - 1].s, path[0].s.task.turn + 1;
      && t.task == Task(Active, k)
      && t.effects == s.effects + [Allotted(k)] + [Answering(k)] + [Interrupted(k)]
      && var before := s.log + [TurnStarted(k)] + [SpeakingStarted(k)];
         before <= t.log && BargesIn(t.log[|before|..], k)
  {
    var k := path[0].s.task.turn + 1;
    var j := HintAnswers(path);
    var e, s, pc := StepAndSend(path, j);
    InterruptMessages(pc, k, Gone);
    AtEnd(path, e);
  }

  // Speech.

  /** Speech that is let in, looks at the task. */
  lemma SpeechIsLetIn(path: seq<Local>) returns (j: nat)
    requires Alone(path) && path[0].pc == Table(VadStart)
    ensures j < |path| && path[j].s == path[0].s
    ensures path[j].pc == if path[0].s.entry.Ending? then Gone else Looking(VadLook)
  {
    var s, pc;
    j, s, pc := StepAndSend(path, 0);
    assert s.log + [] == s.log;
  }

  lemma SpeechLooks(path: seq<Local>) returns (j: nat)
    requires Alone(path) && path[0].pc == Table(VadStart) && !path[0].s.entry.Ending? && path[0].s.listed
    ensures j < |path| && path[j].s == path[0].s
    ensures path[j].pc == Calling(if path[0].s.task.state == Responding then VadInterrupt else VadEnsure)
  {
    var i := SpeechIsLetIn(path);
    var s, pc;
    j, s, pc := StepAndSend(path, i);
    assert s.log + [] == s.log;
  }

  /** Speech goes on to ask for the recognizer. */
  lemma SpeechEnsures(path: seq<Local>, i: nat) returns (j: nat)
    requires Alone(path) && i < |path| && path[i].pc == Calling(VadEnsure)
    requires path[i].s.task.state == Active || HasOpenTurn(path[i].s.task)
    ensures i < j < |path| && path[j].pc == Table(AsrLook)
    ensures var s, t, k := path[i].s, path[j].s, path[j].s.task.turn;
      if s.task.state == Active then
        && t.task == Task(Processing, s.task.turn + 1) && t.effects == s.effects + [Allotted(k)]
        && t.log == s.log + [TurnStarted(k), VadStarted(k)]
      else
        t.task == s.task && t.effects == s.effects + [Nothing] && t.log == s.log + [VadStarted(k)]
  {
    var s, pc;
    j, s, pc := StepAndSend(path, i);
    TellOne(VadStarted(s.task.turn), Table(AsrLook));
    TellTwo(TurnStarted(s.task.turn), VadStarted(s.task.turn), Table(AsrLook));
  }

  /** Speech while no turn is being answered joins the open turn, or starts one if the session is active. */
  lemma SpeechJoinsOrStarts(path: seq<Local>) returns (j: nat)
    requires Alone(path) && path[0].pc == Table(VadStart) && !path[0].s.entry.Ending? && path[0].s.listed
    requires path[0].s.task.state == Active || path[0].s.task.state == Processing
    ensures j < |path| && path[j].pc == Table(AsrLook)
    ensures var s, t, k := path[0].s, path[j].s, path[j].s.task.turn;
      if s.task.state == Active then
        t.task == Task(Processing, s.task.turn + 1) && t.log == s.log + [TurnStarted(k), VadStarted(k)]
      else t.task == s.task && t.log == s.log + [VadStarted(k)]
  {
    var i := SpeechLooks(path);
    j := SpeechEnsures(path, i);
  }

  /** Speech while turn k is being answered interrupts it and starts the next. */
  lemma SpeechBargesIn(path: seq<Local>) returns (j: nat)
    requires Alone(path) && path[0].pc == Table(VadStart) && !path[0].s.entry.Ending? && path[0].s.listed
    requires path[0].s.task.state == Responding
    ensures j < |path| && path[j].pc == Table(AsrLook)
    ensures var s, t, k := path[0].s, path[j].s, path[0].s.task.turn;
      && t.task == Task(Processing, k + 1)
      && t.effects == s.effects + [Interrupted(k)] + [Allotted(k + 1)]
      && exists said :: BargesIn(said, k) && t.log == s.log + said + [TurnStarted(k + 1), VadStarted(k + 1)]
  {
    var k := path[0].s.task.turn;
    var i := SpeechLooks(path);
    var n, s, pc := StepAndSend(path, i);
    InterruptMessages(pc, k, Calling(VadEnsure));
    j := SpeechEnsures(path, n);
    assert BargesIn(Messages(pc), k);
  }

  /** The recognizer listens to the turn that is current, if it listens. */
  lemma SpeechIsHeard(path: seq<Local>, i: nat) returns (j: nat)
    requires Alone(path) && i < |path| && path[i].pc == Table(AsrLook)
    ensures i < j < |path| && path[j].s == path[i].s
    ensures path[j].pc == Gone || path[j].pc == Looking(Stream(path[i].s.task.turn))
    ensures path[j].pc != Gone ==> path[i].s.listed && path[i].s.entry != Absent && path[i].s.task.turn > 0
  {
    var s, pc;
    j, s, pc := StepAndSend(path, i);
    assert s.log + [] == s.log;
    if pc != Gone {
      j, s, pc := StepAndSend(path, j);
      assert s.log + [] == s.log;
    }
  }

  /** A recognizer's stream ends without a final, with an empty one, which completes its turn, or with a transcript,
      which is answered, and may cut the run before it; a run is cancelled, or completes its turn, after a failure to
      reach the model without scheduling the end. */
  lemma ListeningEnds(s: Sys, k: nat, mayEnd: bool, s': Sys, pc': Pc)
    ensures ThreadStep(s, Looking(Stream(k)), s', pc') <==>
      s' == s && (|| pc' in [Gone, Calling(Complete(k, false)), Calling(RunRespond(k, true))]
                  || exists cut :: pc' == Tell(SpeakingStopped(cut), Calling(RunRespond(k, true))))
    ensures ThreadStep(s, Looking(RunWork(k, mayEnd)), s', pc') <==>
      s' == s && pc' in [Gone, Calling(Complete(k, false)), Calling(Complete(k, mayEnd))]
  {
    if pc'.Tell? && pc'.event.SpeakingStopped? {
      assert pc' == Tell(SpeakingStopped(pc'.event.id), pc'.rest);
    }
  }

  /** Nobody who looks the session up and does not find it changes or announces anything; only a run that has come
      to its completion may still schedule the end. */
  lemma UnlistedIsLeftAlone(s: Sys, c: Caller, s': Sys, pc': Pc)
    requires !s.listed && ThreadStep(s, Calling(c), s', pc')
    requires c in [ChannelOpen, OpeningTurn, HintEnsure, HttpStartTurn, HttpInterrupt, EndSession]
          || c.RunRespond? || c.Complete?
    ensures s' == s
    ensures pc' == Gone || (c.Complete? && c.mayEnd && pc' == Table(ScheduleEnd(c.id, false)))
  {
  }

  // HTTP.

  /** A turn started over HTTP is answered and told, or nothing happens. */
  lemma HttpStarts(path: seq<Local>)
    requires Alone(path) && path[0].pc == Calling(HttpStartTurn)
    ensures var s, t, k := path[0].s, path[|path| - 1].s, path[0].s.task.turn + 1;
      if s.listed && s.task.state == Active then
        && t.task == Task(Responding, k) && t.effects == s.effects + [Allotted(k)] + [Answering(k)]
        && t.log == s.log + [HttpTurnReply(k)]
      else t.task == s.task && t.log == s.log
  {
    var k := path[0].s.task.turn + 1;
    var j, s, pc := StepAndSend(path, 0);
    assert s.log + [] == s.log;
    if path[j].pc == Gone {
      AtEnd(path, j);
    } else {
      var e, s2, pc2 := StepAndSend(path, j);
      TellOne(HttpTurnReply(k), Gone);
      AtEnd(path, e);
    }
  }

  /** An interruption over HTTP cuts an open turn and tells it and the next, or nothing happens. */
  lemma HttpInterrupts(path: seq<Local>)
    requires Alone(path) && path[0].pc == Calling(HttpInterrupt)
    ensures var s, t, k := path[0].s, path[|path| - 1].s, path[0].s.task.turn;
      if s.listed && HasOpenTurn(s.task) then
        && t.task == Task(Active, k) && t.effects == s.effects + [Interrupted(k)]
        && t.log == s.log + [HttpInterruptReply(k, k + 1)]
      else t.task == s.task && t.log == s.log
  {
    var k := path[0].s.task.turn;
    var j, s, pc := StepAndSend(path, 0);
    assert s.log + [] == s.log;
    TellOne(HttpInterruptReply(k, k + 1), Gone);
    AtEnd(path, j);
  }

  // The session's life.

  /** A new session negotiates and becomes active. */
  lemma SessionIsCreated(path: seq<Local>)
    requires Alone(path) && path[0].pc == Calling(Negotiate) && path[0].s.task == NEW_TASK
    ensures path[|path| - 1].s.task == Task(Active, 0) && path[|path| - 1].s.log == path[0].s.log
  {
    var j, s, pc := StepAndSend(path, 0);
    assert s.log + [] == s.log;
    var e, s2, pc2 := StepAndSend(path, j);
    assert s2.log + [] == s2.log;
    AtEnd(path, e);
  }

  /** The entry of the session after one was made sure of. */
  function EntryMade(s: Sys): Entry {
    if s.entry == Absent then Live(s.entries) else s.entry
  }

  /** A control channel that opens makes the session active, says so, and makes sure of its entry; after that
      an opening turn may be claimed if the end is not scheduled. */
  lemma ChannelOpens(path: seq<Local>) returns (j: nat)
    requires Alone(path) && path[0].pc == Calling(ChannelOpen) && path[0].s.listed && path[0].s.task.state != Closed
    requires path[0].s.task.state != Closing
    ensures j < |path| && path[j].s.task == Task(Active, path[0].s.task.turn)
    ensures path[j].s.log == path[0].s.log + [SessionReady] && path[j].s.entry == EntryMade(path[0].s)
    ensures path[j].pc == Gone || (path[j].pc == Calling(OpeningTurn) && path[j].s.entry.Live?)
  {
    var s, pc;
    j, s, pc := StepAndSend(path, 0);
    TellOne(SessionReady, Table(MakeEntry(true)));
    var s2, pc2;
    j, s2, pc2 := StepAndSend(path, j);
    assert s2.log + [] == s2.log;
    var s3, pc3;
    j, s3, pc3 := StepAndSend(path, j);
    assert s3.log + [] == s3.log;
  }

  /** A claimed opening turn starts a turn of an active session, says so, and is answered. */
  lemma OpeningIsAnswered(path: seq<Local>) returns (j: nat)
    requires Alone(path) && path[0].pc == Calling(OpeningTurn) && path[0].s.listed && path[0].s.task.state == Active
    ensures j < |path|
    ensures var s, t, k := path[0].s, path[j].s, path[0].s.task.turn + 1;
      && t.task == Task(Responding, k) && t.effects == s.effects + [Allotted(k)] + [Answering(k)]
      && t.log == s.log + [TurnStarted(k)] && path[j].pc == Looking(RunWork(k, false))
  {
    var k := path[0].s.task.turn + 1;
    var s, pc;
    j, s, pc := StepAndSend(path, 0);
    TellOne(TurnStarted(k), Calling(RunRespond(k, false)));
    var s2, pc2;
    j, s2, pc2 := StepAndSend(path, j);
    assert s2.log + [] == s2.log;
  }

  /** A final with a transcript is answered exactly if its turn is current and has not been answered. */
  lemma FinalIsAnswered(path: seq<Local>, k: nat) returns (j: nat)
    requires Alone(path) && path[0].pc == Calling(RunRespond(k, true))
    ensures j < |path|
    ensures if path[0].s.listed && path[0].s.task == Task(Processing, k) then
              && path[j].s.task == Task(Responding, k) && path[j].s.effects == path[0].s.effects + [Answering(k)]
              && path[j].pc == Looking(RunWork(k, true))
            else path[j].pc == Gone && path[j].s.task == path[0].s.task
    ensures path[j].s.log == path[0].s.log
  {
    var s, pc;
    j, s, pc := StepAndSend(path, 0);
    assert s.log + [] == s.log;
  }

  /** At its completion a run completes its turn exactly if it is current and open, and says so; if it may, it
      goes on to schedule the end all the same. */
  lemma CompletionIsTold(path: seq<Local>, k: nat, mayEnd: bool) returns (j: nat)
    requires Alone(path) && path[0].pc == Calling(Complete(k, mayEnd))
    ensures j < |path|
    ensures if path[0].s.listed && HasOpenTurn(path[0].s.task) && path[0].s.task.turn == k then
              && path[j].s.task == Task(Active, k) && path[j].s.effects == path[0].s.effects + [Completed(k)]
              && path[j].s.log == path[0].s.log + [TurnCompleted(k)]
              && (path[j].pc == Gone || (mayEnd && path[j].pc == Table(ScheduleEnd(k, true))))
            else
              && path[j].s.task == path[0].s.task && path[j].s.log == path[0].s.log
              && (path[j].pc == Gone || (mayEnd && path[j].pc == Table(ScheduleEnd(k, false))))
  {
    var s, pc;
    j, s, pc := StepAndSend(path, 0);
    assert s.log + [] == s.log;
    TellOne(TurnCompleted(k), Gone);
    TellOne(TurnCompleted(k), Table(ScheduleEnd(k, true)));
  }

  /** The first to schedule the end of an entry announces it, removes the entry, and ends the session. */
  lemma EndIsAnnounced(path: seq<Local>, k: nat, own: bool)
    requires Alone(path) && path[0].pc == Table(ScheduleEnd(k, own)) && path[0].s.listed
    ensures var s, t := path[0].s, path[|path| - 1].s;
      if s.entry.Live? then
        && t.log == s.log + [SessionEnding(k, own, s.entry.id)]
        && t.entry == Absent && !t.listed && t.task.state == Closed
      else t == s
  {
    var j, s, pc := StepAndSend(path, 0);
    assert s.log + [] == s.log;
    if !path[0].s.entry.Live? {
      AtEnd(path, j);
    } else {
      TellOne(SessionEnding(k, own, path[0].s.entry.id), Table(CloseEntry(true)));
      var i, s2, pc2 := StepAndSend(path, j);
      assert s2.log + [] == s2.log;
      var e, s3, pc3 := StepAndSend(path, i);
      assert s3.log + [] == s3.log;
      AtEnd(path, e);
    }
  }
}
