/** The goroutines of one call (internal/app/bot/control_runtime.go, response_runtime.go, server.go,
    rtc_manager.go) racing on one session task. A goroutine is a program counter; each step is one
    critical section of the task, the session table or the emitter. Any number of goroutines of
    every kind may be started at any moment, and a response run may be cancelled at any moment. */
module TurnProtocol {
  import opened Counting
  import opened SessionTask
  import Runs

  /** Messages to the client: events on the control channel and the replies of the HTTP handlers. A
      session.ending carries the turn whose run scheduled it, whether that run completed its turn itself,
      and the entry of the session table it belongs to; the message sent does not. */
  datatype Event =
    | TurnStarted(id: nat)
    | TurnInterrupt(id: nat, next: nat)
    | TurnCompleted(id: nat)
    | HttpTurnReply(id: nat)
    | HttpInterruptReply(id: nat, next: nat)
    | SpeakingStarted(id: nat)
    | SpeakingStopped(id: nat)
    | VadStarted(id: nat)
    | SessionReady
    | SessionEnding(ended: nat, own: bool, entry: nat)

  /** The program counter of a goroutine: it is gone, about to send a message, to call the task, to enter a
      section of the session table, or at a step that changes nothing that is shared. */
  datatype Pc =
    | Gone
    | Tell(event: Event, rest: Pc)
    | Calling(caller: Caller)
    | Table(section: Section)
    | Looking(look: Look)

  datatype Caller =
    | Negotiate                        // handleCreateSession
    | NewActive
    | ChannelOpen                      // bind, the OnOpen callback
    | OpeningTurn                      // StartAssistantTurn
    | VadInterrupt                     // handleVADStart
    | VadEnsure
    | HintEnsure                       // handleInterruptHint
    | HintRespond(id: nat)
    | HintInterrupt
    | HttpStartTurn
    | HttpRespond(id: nat)             // its error is ignored
    | HttpInterrupt
    | RunRespond(id: nat, mayEnd: bool)  // run and runAssistantTurn
    | Complete(id: nat, mayEnd: bool)
    | EndSession

  datatype Section =
    | MakeEntry(ready: bool)           // HandleOffer, HandleICECandidate; markControlReady, if ready
    | TryOpening                       // maybeStartOpeningTurn
    | VadStart                         // onSpeechStart: isEnding
    | AsrLook                          // onSpeechStart: asrRuntime
    | ScheduleEnd(id: nat, own: bool)  // at the end of run
    | CloseEntry(end: bool)            // Close, and the end of the session after it

  datatype Look =
    | VadLook                          // handleVADStart: Snapshot
    | SpeechStart                      // HandleSpeechStart: Snapshot
    | Stream(id: nat)                  // forwardEvents, up to its final
    | RunWork(id: nat, mayEnd: bool)

  /** The goroutines the environment may start, at their first step. A recognizer's final comes only from a
      stream, a stream only from a speech start, and an opening turn only from a claimed attempt. */
  predicate Starts(pc: Pc) {
    match pc
    case Calling(c) =>
      || c.Negotiate? || c.ChannelOpen? || c.HintEnsure? || c.HttpStartTurn? || c.HttpInterrupt? || c.EndSession?
    case Table(t) => t == MakeEntry(false) || t.TryOpening? || t.VadStart? || t.CloseEntry?
    case _ => false
  }

  /** The session's entry in the session table: none, one whose end is not scheduled, or one whose is. The
      entries are numbered as they are made. */
  datatype Entry = Absent | Live(id: nat) | Ending(id: nat)

  /** `listed`: the session manager still knows the task. `entries` counts the entries made so far.
      `effects` is the history of the task, `log` that of the messages sent. */
  datatype Sys = Sys(
    task: Task,
    listed: bool,
    entry: Entry,
    entries: nat,
    threads: seq<Pc>,
    effects: seq<Effect>,
    log: seq<Event>)

  const START := Sys(NEW_TASK, true, Absent, 0, [], [], [])

  ghost predicate Init(s: Sys) {
    s == START
  }

  /** Only the end of the session takes the task off the list. */
  function Called(s: Sys, c: Call): Sys {
    s.(task := Apply(s.task, c).0, effects := s.effects + [EffectOf(s.task, c)], listed := s.listed && c != End)
  }

  function CallOf(c: Caller): Call {
    match c
    case Negotiate => BeginNegotiation
    case NewActive => MarkActive
    case ChannelOpen => MarkActive
    case OpeningTurn => StartTurn
    case VadInterrupt => Interrupt
    case VadEnsure => EnsureTurn
    case HintEnsure => EnsureTurn
    case HintRespond(k) => StartResponse(k)
    case HintInterrupt => Interrupt
    case HttpStartTurn => StartTurn
    case HttpRespond(k) => StartResponse(k)
    case HttpInterrupt => Interrupt
    case RunRespond(k, _) => StartResponse(k)
    case Complete(k, _) => CompleteTurn(k)
    case EndSession => End
  }

  /** The callers that first look the task up in the session manager. */
  predicate LooksUp(c: Caller) {
    || c.ChannelOpen? || c.OpeningTurn? || c.HintEnsure? || c.HttpStartTurn? || c.HttpInterrupt?
    || c.RunRespond? || c.Complete? || c.EndSession?
  }

  /** One step of a goroutine at `pc`: the state it leaves and the counter it goes on at. */
  ghost predicate ThreadStep(s: Sys, pc: Pc, s': Sys, pc': Pc) {
    match pc
    case Gone => false
    case Tell(e, rest) => s' == s.(log := s.log + [e]) && pc' == rest
    case Calling(c) =>
      if LooksUp(c) && !s.listed then s' == s && WithoutTask(c, pc')
      else s' == Called(s, CallOf(c)) && After(c, s.task.turn, Apply(s.task, CallOf(c)).1, pc')
    case Table(t) => TableStep(s, t, s', pc')
    case Looking(l) => s' == s && Looks(s.listed, s.task, l, pc')
  }

  /** A run that has come to its completion may schedule the end all the same. */
  predicate WithoutTask(c: Caller, pc': Pc) {
    pc' == Gone || (c.Complete? && c.mayEnd && pc' == Table(ScheduleEnd(c.id, false)))
  }

  /** The attempt to open a turn may fail for other reasons, and the recognizer may not be there yet. */
  ghost predicate TableStep(s: Sys, t: Section, s': Sys, pc': Pc) {
    match t
    case MakeEntry(ready) =>
      && s' == (if s.entry == Absent then s.(entry := Live(s.entries), entries := s.entries + 1) else s)
      && pc' == if ready then Table(TryOpening) else Gone
    case TryOpening => s' == s && (pc' == Gone || (s.entry.Live? && pc' == Calling(OpeningTurn)))
    case VadStart => s' == s && pc' == if s.entry.Ending? then Gone else Looking(VadLook)
    case AsrLook => s' == s && (pc' == Gone || (s.entry != Absent && pc' == Looking(SpeechStart)))
    case ScheduleEnd(k, own) =>
      if s.entry.Live? then
        && s' == s.(entry := Ending(s.entry.id))
        && pc' == Tell(SessionEnding(k, own, s.entry.id), Table(CloseEntry(true)))
      else s' == s && pc' == Gone
    case CloseEntry(end) => s' == s.(entry := Absent) && pc' == if end then Calling(EndSession) else Gone
  }

  predicate Looks(listed: bool, t: Task, l: Look, pc': Pc) {
    match l
    case VadLook =>
      pc' == if !listed then Table(AsrLook)
             else if t.state == Responding then Calling(VadInterrupt)
             else Calling(VadEnsure)
    case SpeechStart => pc' == Gone || (listed && t.turn > 0 && pc' == Looking(Stream(t.turn)))
    case Stream(k) =>
      // no final, an empty one, or a transcript, which cancels the current run
      || pc' == Gone || pc' == Calling(Complete(k, false)) || pc' == Calling(RunRespond(k, true))
      || (pc'.Tell? && pc'.event.SpeakingStopped? && pc'.rest == Calling(RunRespond(k, true)))
    case RunWork(k, mayEnd) =>
      // cancelled, failed to reach the model, or the whole reply has been played
      pc' == Gone || pc' == Calling(Complete(k, false)) || pc' == Calling(Complete(k, mayEnd))
  }

  /** Where a goroutine goes on, given the reply to its call and the id that was current. */
  predicate After(c: Caller, turn: nat, reply: Reply, pc': Pc) {
    match (c, reply)
    case (Negotiate, _) => pc' == Calling(NewActive)
    case (ChannelOpen, _) => pc' == Tell(SessionReady, Table(MakeEntry(true)))
    case (OpeningTurn, Turn(k, _)) => pc' == Tell(TurnStarted(k), Calling(RunRespond(k, false)))
    case (VadInterrupt, Stopped(k, next)) => AfterInterrupt(pc', k, next, Calling(VadEnsure))
    case (VadInterrupt, _) => pc' == Table(AsrLook)
    case (VadEnsure, Turn(k, created)) =>
      var told := Tell(VadStarted(k), Table(AsrLook));
      pc' == if created then Tell(TurnStarted(k), told) else told
    case (VadEnsure, _) => pc' == Table(AsrLook)
    case (HintEnsure, Turn(k, created)) =>
      pc' == if created then Tell(TurnStarted(k), Calling(HintRespond(k))) else Calling(HintInterrupt)
    case (HintRespond(k), Done) => pc' == Tell(SpeakingStarted(turn), Calling(HintInterrupt))
    case (HintInterrupt, Stopped(k, next)) => AfterInterrupt(pc', k, next, Gone)
    case (HttpStartTurn, Turn(k, _)) => pc' == Calling(HttpRespond(k))
    case (HttpRespond(k), _) => pc' == Tell(HttpTurnReply(k), Gone)
    case (HttpInterrupt, Stopped(k, next)) => pc' == Tell(HttpInterruptReply(k, next), Gone)
    case (RunRespond(k, mayEnd), Done) => pc' == Looking(RunWork(k, mayEnd))
    case (Complete(k, mayEnd), Done) =>
      || pc' == Tell(TurnCompleted(turn), Gone)
      || (mayEnd && pc' == Tell(TurnCompleted(turn), Table(ScheduleEnd(k, true))))
    case (Complete(k, mayEnd), _) => pc' == Gone || (mayEnd && pc' == Table(ScheduleEnd(k, false)))
    case _ => pc' == Gone
  }

  /** The two messages of a barge-in, and the stop that cancelling the current run may add. */
  predicate AfterInterrupt(pc: Pc, k: nat, next: nat, rest: Pc) {
    && pc.Tell? && pc.event == SpeakingStopped(k)
    && pc.rest.Tell? && pc.rest.event == TurnInterrupt(k, next)
    && (|| pc.rest.rest == rest
        || (pc.rest.rest.Tell? && pc.rest.rest.event.SpeakingStopped? && pc.rest.rest.rest == rest))
  }

  ghost predicate Next(s: Sys, s': Sys) {
    || (exists pc :: Starts(pc) && s' == s.(threads := s.threads + [pc]))
    || (exists i, pc', m: Sys :: StepOf(s, i, pc', m) && s' == m.(threads := s.threads[i := pc']))
  }

  ghost predicate StepOf(s: Sys, i: int, pc': Pc, m: Sys) {
    0 <= i < |s.threads| && ThreadStep(s, s.threads[i], m, pc')
  }

  ghost predicate IsRun(run: seq<Sys>) {
    Runs.IsRun(run, Init, Next)
  }

  // Conservation: every allotment, interruption and completion is announced exactly once, or some
  // goroutine is about to announce it.

  predicate Announces(e: Event, f: Effect) {
    match e
    case TurnStarted(k) => f == Allotted(k)
    case HttpTurnReply(k) => f == Allotted(k)
    case TurnInterrupt(k, _) => f == Interrupted(k)
    case HttpInterruptReply(k, _) => f == Interrupted(k)
    case TurnCompleted(k) => f == Completed(k)
    case _ => false
  }

  predicate Announced(f: Effect) {
    f.Allotted? || f.Interrupted? || f.Completed?
  }

  function Announcing(f: Effect): Event -> nat {
    e => if Announces(e, f) then 1 else 0
  }

  function Told(log: seq<Event>, f: Effect): nat {
    Total(log, Announcing(f))
  }

  function Owed(pc: Pc, f: Effect): nat {
    match pc
    case Tell(e, rest) => (if Announces(e, f) then 1 else 0) + Owed(rest, f)
    case Calling(HttpRespond(k)) => if f == Allotted(k) then 1 else 0
    case _ => 0
  }

  function Owing(f: Effect): Pc -> nat {
    pc => Owed(pc, f)
  }

  function OwedByAll(threads: seq<Pc>, f: Effect): nat {
    Total(threads, Owing(f))
  }

  /** An interrupt message names the id after the interrupted one as the next. */
  predicate NamesNext(e: Event) {
    match e
    case TurnInterrupt(k, next) => next == k + 1
    case HttpInterruptReply(k, next) => next == k + 1
    case _ => true
  }

  predicate PcNamesNext(pc: Pc) {
    match pc
    case Tell(e, rest) => NamesNext(e) && PcNamesNext(rest)
    case _ => true
  }

  // session.ending

  function IsEndingOf(e: nat): Event -> nat {
    (x: Event) => if x.SessionEnding? && x.entry == e then 1 else 0
  }

  /** How often the end of entry e was announced. */
  function Endings(log: seq<Event>, e: nat): nat {
    Total(log, IsEndingOf(e))
  }

  function EndingsOwed(pc: Pc, e: nat): nat {
    match pc
    case Tell(x, rest) => IsEndingOf(e)(x) + EndingsOwed(rest, e)
    case _ => 0
  }

  function EndingsOwing(e: nat): Pc -> nat {
    pc => EndingsOwed(pc, e)
  }

  /** Whether entry e may still announce its end, less whether it was made. */
  function Due(s: Sys, e: nat): int {
    (if s.entry == Live(e) then 1 else 0) - if e < s.entries then 1 else 0
  }

  predicate Numbered(s: Sys) {
    s.entry != Absent ==> s.entry.id < s.entries
  }

  /** The end of an entry is announced once at most, and only of one that was made. */
  ghost predicate EndsOnce(s: Sys, e: nat) {
    Endings(s.log, e) + Total(s.threads, EndingsOwing(e)) + Due(s, e) <= 0
  }

  ghost predicate Inv(s: Sys) {
    && Explains(s.effects, s.task)
    && (!s.listed <==> s.task.state == Closed)
    && s.task.state != Closing
    && Numbered(s)
    && (forall f | Announced(f) :: Conserved(s, f))
    && (forall e: nat :: EndsOnce(s, e))
    && AllNameNext(s.log, s.threads)
  }

  ghost predicate AllNameNext(log: seq<Event>, threads: seq<Pc>) {
    && (forall e | e in log :: NamesNext(e))
    && (forall i | 0 <= i < |threads| :: PcNamesNext(threads[i]))
  }

  ghost predicate Conserved(s: Sys, f: Effect) {
    Told(s.log, f) + OwedByAll(s.threads, f) == Happened(s.effects, f)
  }

  lemma CallBooks(s: Sys, c: Call, f: Effect)
    ensures Happened(Called(s, c).effects, f) == Happened(s.effects, f) + if EffectOf(s.task, c) == f then 1 else 0
  {
    CountMore(s.effects, EffectOf(s.task, c), f);
  }

  lemma TellBooks(s: Sys, x: Event, f: Effect)
    ensures Told(s.log + [x], f) == Told(s.log, f) + if Announces(x, f) then 1 else 0
  {
    TotalMore(s.log, x, Announcing(f));
  }

  /** The accounts of one message and of a chain of messages, written out. */
  lemma OwedOne(x: Event, rest: Pc, f: Effect)
    ensures Owed(Tell(x, rest), f) == (if Announces(x, f) then 1 else 0) + Owed(rest, f)
    ensures PcNamesNext(Tell(x, rest)) == (NamesNext(x) && PcNamesNext(rest))
  {
  }

  lemma OwedAfterInterrupt(pc: Pc, k: nat, next: nat, rest: Pc, f: Effect)
    requires AfterInterrupt(pc, k, next, rest)
    ensures Owed(pc, f) == (if f == Interrupted(k) then 1 else 0) + Owed(rest, f)
    ensures next == k + 1 ==> PcNamesNext(pc) == PcNamesNext(rest)
  {
    OwedOne(SpeakingStopped(k), pc.rest, f);
    OwedOne(TurnInterrupt(k, next), pc.rest.rest, f);
    if pc.rest.rest != rest {
      OwedOne(pc.rest.rest.event, rest, f);
    }
  }

  /** What a reply tells its caller to have happened to a turn. */
  function Booked(c: Call, turn: nat, reply: Reply): Effect {
    match reply
    case Turn(k, true) => Allotted(k)
    case Stopped(k, _) => Interrupted(k)
    case Done => if c.CompleteTurn? then Completed(turn) else Nothing
    case _ => Nothing
  }

  lemma ReplyTellsEffect(t: Task, c: Call)
    ensures var e, b := EffectOf(t, c), Booked(c, t.turn, Apply(t, c).1); Announced(e) || Announced(b) ==> e == b
    ensures Apply(t, c).1.Stopped? ==> Apply(t, c).1.next == Apply(t, c).1.id + 1 && c == Interrupt
    ensures Apply(t, c).1.Turn? ==> c == EnsureTurn || (c == StartTurn && Apply(t, c).1.created)
  {
  }

  /** What a goroutine owes after a call is what the reply told it. */
  lemma ReplyIsOwed(c: Caller, turn: nat, reply: Reply, pc': Pc, f: Effect)
    requires After(c, turn, reply, pc') && Announced(f)
    requires reply.Stopped? ==> reply.next == reply.id + 1 && CallOf(c) == Interrupt
    requires reply.Turn? ==> CallOf(c) == EnsureTurn || (CallOf(c) == StartTurn && reply.created)
    ensures Owed(pc', f) == Owed(Calling(c), f) + if Booked(CallOf(c), turn, reply) == f then 1 else 0
    ensures PcNamesNext(pc')
  {
    if (c.VadInterrupt? || c.HintInterrupt?) && reply.Stopped? {
      OwedAfterInterrupt(pc', reply.id, reply.next, if c.VadInterrupt? then Calling(VadEnsure) else Gone, f);
    } else if pc'.Tell? {
      OwedOne(pc'.event, pc'.rest, f);
    }
  }

  lemma CallConserves(s: Sys, c: Caller, pc': Pc, f: Effect)
    requires After(c, s.task.turn, Apply(s.task, CallOf(c)).1, pc') && Announced(f)
    ensures Owed(pc', f) - Happened(Called(s, CallOf(c)).effects, f) == Owed(Calling(c), f) - Happened(s.effects, f)
    ensures PcNamesNext(pc')
  {
    ReplyTellsEffect(s.task, CallOf(c));
    ReplyIsOwed(c, s.task.turn, Apply(s.task, CallOf(c)).1, pc', f);
    CallBooks(s, CallOf(c), f);
  }

  lemma WithoutTaskOwesNothing(c: Caller, pc': Pc, f: Effect)
    requires LooksUp(c) && WithoutTask(c, pc')
    ensures Owed(Calling(c), f) == Owed(pc', f) == 0 && PcNamesNext(pc')
  {
  }

  lemma TableOwesNothing(s: Sys, t: Section, s': Sys, pc': Pc, f: Effect)
    requires TableStep(s, t, s', pc') && Announced(f)
    ensures s'.log == s.log && s'.effects == s.effects && Owed(pc', f) == 0 && PcNamesNext(pc')
  {
    if pc'.Tell? {
      OwedOne(pc'.event, Table(CloseEntry(true)), f);
    }
  }

  lemma LookOwesNothing(listed: bool, t: Task, l: Look, pc': Pc, f: Effect)
    requires Looks(listed, t, l, pc') && Announced(f)
    ensures Owed(pc', f) == 0 && PcNamesNext(pc')
  {
    if pc'.Tell? {
      OwedOne(pc'.event, pc'.rest, f);
    }
  }

  /** What one thread step does to the account of `f`. */
  lemma StepConserves(s: Sys, pc: Pc, s': Sys, pc': Pc, f: Effect)
    requires ThreadStep(s, pc, s', pc') && Announced(f)
    ensures Told(s'.log, f) + Owed(pc', f) - Happened(s'.effects, f)
         == Told(s.log, f) + Owed(pc, f) - Happened(s.effects, f)
    ensures PcNamesNext(pc) ==> PcNamesNext(pc')
  {
    match pc {
      case Tell(x, rest) =>
        TellBooks(s, x, f);
        OwedOne(x, rest, f);
      case Calling(c) =>
        if LooksUp(c) && !s.listed {
          WithoutTaskOwesNothing(c, pc', f);
        } else {
          CallConserves(s, c, pc', f);
        }
      case Table(t) => TableOwesNothing(s, t, s', pc', f);
      case Looking(l) => LookOwesNothing(s.listed, s.task, l, pc', f);
    }
  }

  // The ends.

  lemma NoEndingAfterInterrupt(pc: Pc, k: nat, next: nat, rest: Pc, e: nat)
    requires AfterInterrupt(pc, k, next, rest) && EndingsOwed(rest, e) == 0
    ensures EndingsOwed(pc, e) == 0
  {
    assert EndingsOwed(pc.rest.rest, e) == 0;
    assert EndingsOwed(pc.rest, e) == 0;
  }

  lemma NoEndingAfterCall(c: Caller, turn: nat, reply: Reply, pc': Pc, e: nat)
    requires After(c, turn, reply, pc')
    ensures EndingsOwed(pc', e) == 0
  {
    if (c.VadInterrupt? || c.HintInterrupt?) && reply.Stopped? {
      NoEndingAfterInterrupt(pc', reply.id, reply.next, if c.VadInterrupt? then Calling(VadEnsure) else Gone, e);
    } else if pc'.Tell? {
      assert EndingsOwed(pc'.rest, e) == 0;
    }
  }

  lemma TableKeepsEnds(s: Sys, t: Section, s': Sys, pc': Pc, e: nat)
    requires TableStep(s, t, s', pc') && Numbered(s)
    ensures Numbered(s') && s'.log == s.log && EndingsOwed(pc', e) + Due(s', e) <= Due(s, e)
  {
  }

  lemma NoEndingAfterLook(listed: bool, t: Task, l: Look, pc': Pc, e: nat)
    requires Looks(listed, t, l, pc')
    ensures EndingsOwed(pc', e) == 0
  {
  }

  /** What one thread step does to the account of the ends. */
  lemma StepKeepsEnds(s: Sys, pc: Pc, s': Sys, pc': Pc, e: nat)
    requires ThreadStep(s, pc, s', pc') && Numbered(s)
    ensures Numbered(s')
    ensures Endings(s'.log, e) + EndingsOwed(pc', e) + Due(s', e) <= Endings(s.log, e) + EndingsOwed(pc, e) + Due(s, e)
  {
    match pc {
      case Tell(x, _) => TotalMore(s.log, x, IsEndingOf(e));
      case Calling(c) =>
        if !(LooksUp(c) && !s.listed) {
          NoEndingAfterCall(c, s.task.turn, Apply(s.task, CallOf(c)).1, pc', e);
        }
      case Table(t) => TableKeepsEnds(s, t, s', pc', e);
      case Looking(l) => NoEndingAfterLook(s.listed, s.task, l, pc', e);
    }
  }

  /** A step leaves the task alone or makes one call on it. */
  lemma StepCallsOnce(s: Sys, pc: Pc, s': Sys, pc': Pc) returns (c: Call)
    requires ThreadStep(s, pc, s', pc')
    ensures || (s'.task == s.task && s'.effects == s.effects && s'.listed == s.listed)
            || (s'.task == Called(s, c).task && s'.effects == Called(s, c).effects && s'.listed == Called(s, c).listed)
    ensures pc.Calling? ==> c == CallOf(pc.caller)
  {
    c := if pc.Calling? then CallOf(pc.caller) else End;
  }

  lemma StepKeepsExplained(s: Sys, pc: Pc, s': Sys, pc': Pc)
    requires ThreadStep(s, pc, s', pc') && Explains(s.effects, s.task)
    requires (!s.listed <==> s.task.state == Closed) && s.task.state != Closing
    ensures Explains(s'.effects, s'.task)
    ensures (!s'.listed <==> s'.task.state == Closed) && s'.task.state != Closing
  {
    var c := StepCallsOnce(s, pc, s', pc');
    CalledKeepsExplained(s, c);
  }

  lemma CalledKeepsExplained(s: Sys, c: Call)
    requires Explains(s.effects, s.task)
    requires (!s.listed <==> s.task.state == Closed) && s.task.state != Closing
    ensures Explains(Called(s, c).effects, Called(s, c).task)
    ensures (!Called(s, c).listed <==> Called(s, c).task.state == Closed) && Called(s, c).task.state != Closing
  {
    ApplyKeepsExplained(s.effects, s.task, c);
  }

  lemma InvInit(s: Sys)
    requires Init(s)
    ensures Inv(s)
  {
    NewTaskIsExplained();
  }

  lemma StartOwesNothing(pc: Pc, f: Effect, e: nat)
    requires Starts(pc)
    ensures Owed(pc, f) == 0 && EndingsOwed(pc, e) == 0 && PcNamesNext(pc)
  {
  }

  lemma StartKeepsInv(s: Sys, pc: Pc)
    requires Inv(s) && Starts(pc)
    ensures Inv(s.(threads := s.threads + [pc]))
  {
    var s' := s.(threads := s.threads + [pc]);
    StartOwesNothing(pc, Nothing, 0);
    forall e: nat ensures EndsOnce(s', e) {
      assert EndsOnce(s, e);
      StartOwesNothing(pc, Nothing, e);
      TotalMore(s.threads, pc, EndingsOwing(e));
    }
    forall f | Announced(f) ensures Conserved(s', f) {
      assert Conserved(s, f);
      StartOwesNothing(pc, f, 0);
      TotalMore(s.threads, pc, Owing(f));
    }
  }

  lemma MoveConserves(s: Sys, i: int, pc': Pc, m: Sys, f: Effect)
    requires StepOf(s, i, pc', m) && Announced(f) && Conserved(s, f)
    ensures Conserved(m.(threads := s.threads[i := pc']), f)
  {
    StepConserves(s, s.threads[i], m, pc', f);
    TotalMove(s.threads, i, pc', Owing(f));
  }

  lemma MoveKeepsEnds(s: Sys, i: int, pc': Pc, m: Sys, e: nat)
    requires StepOf(s, i, pc', m) && Numbered(s) && EndsOnce(s, e)
    ensures Numbered(m)
    ensures EndsOnce(m.(threads := s.threads[i := pc']), e)
  {
    StepKeepsEnds(s, s.threads[i], m, pc', e);
    TotalMove(s.threads, i, pc', EndingsOwing(e));
  }

  lemma MoveKeepsNames(s: Sys, i: int, pc': Pc, m: Sys)
    requires StepOf(s, i, pc', m)
    requires AllNameNext(s.log, s.threads)
    ensures AllNameNext(m.log, s.threads[i := pc'])
  {
    StepConserves(s, s.threads[i], m, pc', Completed(0));
    if s.threads[i].Tell? {
      assert forall e | e in m.log :: e in s.log || e == s.threads[i].event;
    }
  }

  lemma MoveConservesAll(s: Sys, i: int, pc': Pc, m: Sys)
    requires StepOf(s, i, pc', m) && forall f | Announced(f) :: Conserved(s, f)
    ensures forall f | Announced(f) :: Conserved(m.(threads := s.threads[i := pc']), f)
  {
    forall f | Announced(f) ensures Conserved(m.(threads := s.threads[i := pc']), f) {
      MoveConserves(s, i, pc', m, f);
    }
  }

  lemma MoveKeepsInv(s: Sys, i: int, pc': Pc, m: Sys)
    requires Inv(s) && StepOf(s, i, pc', m)
    ensures Inv(m.(threads := s.threads[i := pc']))
  {
    StepKeepsExplained(s, s.threads[i], m, pc');
    var s' := m.(threads := s.threads[i := pc']);
    forall e: nat ensures EndsOnce(s', e) {
      MoveKeepsEnds(s, i, pc', m, e);
    }
    MoveKeepsEnds(s, i, pc', m, 0);
    MoveKeepsNames(s, i, pc', m);
    MoveConservesAll(s, i, pc', m);
  }

  lemma InvNext(s: Sys, s': Sys)
    requires Inv(s) && Next(s, s')
    ensures Inv(s')
  {
    if pc :| Starts(pc) && s' == s.(threads := s.threads + [pc]) {
      StartKeepsInv(s, pc);
    } else {
      var i, pc', m: Sys :| StepOf(s, i, pc', m) && s' == m.(threads := s.threads[i := pc']);
      MoveKeepsInv(s, i, pc', m);
    }
  }

  /** Every state of every run satisfies the invariant. */
  lemma RunKeepsInv(run: seq<Sys>, i: nat)
    requires IsRun(run) && i < |run|
    ensures Inv(run[i])
  {
    forall s | Init(s) ensures Inv(s) {
      InvInit(s);
    }
    forall s, s' | Inv(s) && Next(s, s') ensures Inv(s') {
      InvNext(s, s');
    }
    Runs.Invariant(run, i, Init, Next, Inv);
  }

  /** The protocol's safety, for every interleaving: ids are allotted 1, 2, 3, ...; only the current
      one can be open; each id is started, answered and closed at most once and announced at most
      once; a turn is never announced both completed and interrupted; an interruption names the
      next id; session.ending is sent at most once for each entry of the session table. */
  lemma TurnProtocolIsSafe(run: seq<Sys>, i: nat, k: nat, e: nat)
    requires IsRun(run) && i < |run|
    ensures var s := run[i];
      && Explains(s.effects, s.task)
      && Told(s.log, Allotted(k)) <= Happened(s.effects, Allotted(k)) <= 1
      && Happened(s.effects, Answering(k)) <= 1
      && Told(s.log, Completed(k)) <= Happened(s.effects, Completed(k))
      && Told(s.log, Interrupted(k)) <= Happened(s.effects, Interrupted(k))
      && Happened(s.effects, Completed(k)) + Happened(s.effects, Interrupted(k)) <= 1
      && Endings(s.log, e) <= (if e < s.entries then 1 else 0)
      && (forall e | e in s.log :: NamesNext(e))
  {
    RunKeepsInv(run, i);
    var s := run[i];
    assert PhaseOf(k, s.effects) == PhaseNow(k, s.task);
    LivesOnce(k, s.effects);
    assert Conserved(s, Allotted(k)) && Conserved(s, Completed(k)) && Conserved(s, Interrupted(k));
    assert EndsOnce(s, e);
  }

  lemma NothingOwed(threads: seq<Pc>, f: Effect)
    requires forall i | 0 <= i < |threads| :: threads[i] == Gone
    ensures OwedByAll(threads, f) == 0
  {
    if OwedByAll(threads, f) > 0 {
      var _ := TotalFrom(threads, Owing(f));
    }
  }

  /** Once all goroutines are gone, what was announced is exactly what happened. */
  lemma QuietRunsToldEverything(run: seq<Sys>, i: nat, f: Effect)
    requires IsRun(run) && i < |run| && Announced(f)
    requires forall t | 0 <= t < |run[i].threads| :: run[i].threads[t] == Gone
    ensures Told(run[i].log, f) == Happened(run[i].effects, f)
  {
    RunKeepsInv(run, i);
    assert Conserved(run[i], f);
    NothingOwed(run[i].threads, f);
  }

  /** Once the session is closed it stays closed and nothing happens to any turn. */
  lemma {:induction false} ClosedForGood(run: seq<Sys>, i: nat, j: nat, f: Effect)
    requires IsRun(run) && i <= j < |run| && run[i].task.state == Closed && f != Nothing
    ensures run[j].task == run[i].task
    ensures Happened(run[j].effects, f) == Happened(run[i].effects, f)
  {
    if i < j {
      var s, s' := run[j - 1], run[j];
      ClosedForGood(run, i, j - 1, f);
      RunKeepsInv(run, j - 1);
      assert Runs.StepAt(run, j, Next);
      ClosedStep(s, s', f);
    }
  }

  lemma ClosedStep(s: Sys, s': Sys, f: Effect)
    requires Inv(s) && Next(s, s') && s.task.state == Closed && f != Nothing
    ensures s'.task == s.task && Happened(s'.effects, f) == Happened(s.effects, f)
  {
    if exists pc :: Starts(pc) && s' == s.(threads := s.threads + [pc]) {
    } else {
      var i, pc', m: Sys :| StepOf(s, i, pc', m) && s' == m.(threads := s.threads[i := pc']);
      var c := StepCallsOnce(s, s.threads[i], m, pc');
      ClosedAbsorbs(s.task, c);
      CallBooks(s, c, f);
    }
  }
}
