/** The session table of internal/app/bot/rtc_manager.go. The opening turn waits for two things that
    come in either order, the open control channel and the response runtime of the remote track. An
    entry of the table may be closed and replaced by a fresh one at any moment. Any number of
    goroutines of every kind race on it, one critical section at a time. */
module OpeningRendezvous {
  import opened Counting
  import opened Outcome
  import Runs

  datatype Entry = Entry(controlReady: bool, response: bool, openingTurnStarted: bool, endingScheduled: bool)

  const FRESH := Entry(false, false, false, false)

  // What each critical section does to the entry of a session, which may be missing.

  function Made(e: Option<Entry>): Option<Entry> {
    if e.Some? then e else Some(FRESH)
  }

  function Readied(e: Option<Entry>): Option<Entry> {
    Some(Made(e).value.(controlReady := true))
  }

  function Registered(e: Option<Entry>): Option<Entry> {
    if e.Some? then Some(e.value.(response := true)) else None
  }

  /** The test of maybeStartOpeningTurn. */
  predicate MayOpen(e: Option<Entry>) {
    e.Some? && e.value.controlReady && e.value.response && !e.value.openingTurnStarted && !e.value.endingScheduled
  }

  function Claimed(e: Option<Entry>): Option<Entry> {
    if MayOpen(e) then Some(e.value.(openingTurnStarted := true)) else e
  }

  function Released(e: Option<Entry>): Option<Entry> {
    if e.Some? then Some(e.value.(openingTurnStarted := false)) else None
  }

  predicate MayEnd(e: Option<Entry>) {
    e.Some? && !e.value.endingScheduled
  }

  function Ending(e: Option<Entry>): Option<Entry> {
    if MayEnd(e) then Some(e.value.(endingScheduled := true)) else e
  }

  class RtcSession {
    var controlReady: bool
    var response: bool  // whether a response runtime is registered
    var openingTurnStarted: bool
    var endingScheduled: bool

    constructor ()
      ensures Abs() == FRESH
    {
      controlReady, response, openingTurnStarted, endingScheduled := false, false, false, false;
    }

    function Abs(): Entry
      reads this
    {
      Entry(controlReady, response, openingTurnStarted, endingScheduled)
    }
  }

  /** The critical sections of the manager, one method each; the goroutines below take them one at a
      time. */
  class RtcManager {
    var session: map<string, RtcSession>

    constructor ()
      ensures session == map[]
    {
      session := map[];
    }

    /** The entry a section works on. */
    function At(id: string): set<RtcSession>
      reads this
    {
      if id in session then {session[id]} else {}
    }

    function EntryOf(id: string): Option<Entry>
      reads this, At(id)
    {
      if id in session then Some(session[id].Abs()) else None
    }

    method MakeEntry(id: string)
      modifies this
      ensures session.Keys == old(session.Keys) + {id} && session == old(session)[id := session[id]]
      ensures id in old(session) ==> session[id] == old(session[id])
      ensures id !in old(session) ==> fresh(session[id])
      ensures EntryOf(id) == Made(old(EntryOf(id)))
      ensures id !in old(session) ==> EntryOf(id) == Some(Entry(false, false, false, false))
    {
      if id !in session {
        var state := new RtcSession();
        session := session[id := state];
      }
    }

    method MarkReady(id: string)
      modifies this, At(id)
      ensures session.Keys == old(session.Keys) + {id} && session == old(session)[id := session[id]]
      ensures id in old(session) ==> session[id] == old(session[id])
      ensures id !in old(session) ==> fresh(session[id])
      ensures EntryOf(id) == Readied(old(EntryOf(id)))
      ensures id in old(session) ==>
        var e := old(EntryOf(id)).value;
        EntryOf(id) == Some(Entry(true, e.response, e.openingTurnStarted, e.endingScheduled))
      ensures id !in old(session) ==> EntryOf(id) == Some(Entry(true, false, false, false))
    {
      MakeEntry(id);
      session[id].controlReady := true;
    }

    method Register(id: string)
      modifies At(id)
      ensures EntryOf(id) == Registered(old(EntryOf(id)))
      ensures id in session ==>
        var e := old(EntryOf(id)).value;
        EntryOf(id) == Some(Entry(e.controlReady, true, e.openingTurnStarted, e.endingScheduled))
    {
      if id in session {
        session[id].response := true;
      }
    }

    method TryOpening(id: string) returns (start: bool)
      modifies At(id)
      ensures var e := old(EntryOf(id));
        start <==> e.Some? && e.value.controlReady && e.value.response
                   && !e.value.openingTurnStarted && !e.value.endingScheduled
      ensures EntryOf(id) == Claimed(old(EntryOf(id)))
      ensures id in session ==>
        var e := old(EntryOf(id)).value;
        EntryOf(id) == Some(Entry(e.controlReady, e.response, e.openingTurnStarted || start, e.endingScheduled))
    {
      if id !in session {
        return false;
      }
      var state := session[id];
      if !state.controlReady || !state.response || state.openingTurnStarted || state.endingScheduled {
        return false;
      }
      state.openingTurnStarted := true;
      return true;
    }

    /** The failed attempt clears the flag of whichever entry is current by then. */
    method UndoOpening(id: string)
      modifies At(id)
      ensures EntryOf(id) == Released(old(EntryOf(id)))
      ensures id in session ==>
        var e := old(EntryOf(id)).value;
        EntryOf(id) == Some(Entry(e.controlReady, e.response, false, e.endingScheduled))
    {
      if id in session {
        session[id].openingTurnStarted := false;
      }
    }

    method BeginEnd(id: string) returns (emit: bool)
      modifies At(id)
      ensures emit == MayEnd(old(EntryOf(id)))
      ensures EntryOf(id) == Ending(old(EntryOf(id)))
      ensures id in session ==>
        var e := old(EntryOf(id)).value;
        && emit == !e.endingScheduled
        && EntryOf(id) == Some(Entry(e.controlReady, e.response, e.openingTurnStarted, true))
    {
      emit := id in session && !session[id].endingScheduled;
      if emit {
        session[id].endingScheduled := true;
      }
    }

    method Close(id: string)
      modifies this
      ensures session == old(session) - {id} && EntryOf(id) == None
    {
      session := session - {id};
    }
  }

  datatype Event =
    | Attempted(entry: nat)  // StartAssistantTurn is about to be called
    | Opened(entry: nat)     // and has opened a turn
    | Reset(entry: nat)      // a failed attempt of another entry cleared this one's flag
    | Scheduled(entry: nat)
    | Announced(entry: nat)  // session.ending

  datatype Pc =
    | Gone
    | MakeEntry                 // HandleOffer, HandleICECandidate
    | MarkReady                 // markControlReady
    | Register                  // the OnTrack callback
    | TryOpening                // maybeStartOpeningTurn
    | StartOpening(entry: nat)
    | UndoOpening(entry: nat)
    | ScheduleEnd
    | EmitEnding(entry: nat)
    | Close
    | EndSession                // End of the session manager

  predicate Starts(pc: Pc) {
    pc.MakeEntry? || pc.MarkReady? || pc.Register? || pc.ScheduleEnd? || pc.Close? || pc.EndSession?
  }

  /** `entries` are all that ever were in the table, `current` the one that is there now, if any. `listed`:
      the session manager still knows the task. */
  datatype Sys = Sys(entries: seq<Entry>, current: int, listed: bool, threads: seq<Pc>, log: seq<Event>)

  const EMPTY := Sys([], -1, true, [], [])

  ghost predicate Init(s: Sys) {
    s == EMPTY
  }

  predicate Present(s: Sys) {
    0 <= s.current < |s.entries|
  }

  function Here(s: Sys): Option<Entry> {
    if Present(s) then Some(s.entries[s.current]) else None
  }

  /** The table with what a section has made of the current entry; one made anew is never an earlier one. */
  function WithHere(s: Sys, e: Option<Entry>): Sys {
    if e.None? then s.(current := -1)
    else if Present(s) then s.(entries := s.entries[s.current := e.value])
    else s.(entries := s.entries + [e.value], current := |s.entries|)
  }

  ghost predicate ThreadStep(s: Sys, pc: Pc, s': Sys, pc': Pc) {
    match pc
    case MakeEntry => s' == WithHere(s, Made(Here(s))) && pc' == Gone
    case MarkReady => s' == WithHere(s, Readied(Here(s))) && pc' == TryOpening
    case Register => s' == WithHere(s, Registered(Here(s))) && pc' == TryOpening
    case TryOpening =>
      if MayOpen(Here(s)) then
        && s' == WithHere(s, Claimed(Here(s))).(log := s.log + [Attempted(s.current)])
        && pc' == StartOpening(s.current)
      else s' == s && pc' == Gone
    case StartOpening(e) =>
      // a turn, or an error; without the task nothing, or an error if it was closed after it was looked up
      || (s' == s && pc' == UndoOpening(e))
      || (if s.listed then s' == s.(log := s.log + [Opened(e)]) && pc' == Gone else s' == s && pc' == Gone)
    case UndoOpening(e) =>
      && s' == WithHere(s, Released(Here(s)))
               .(log := s.log + if Present(s) && s.current != e then [Reset(s.current)] else [])
      && pc' == Gone
    case ScheduleEnd =>
      if MayEnd(Here(s)) then
        && s' == WithHere(s, Ending(Here(s))).(log := s.log + [Scheduled(s.current)])
        && pc' == EmitEnding(s.current)
      else s' == s && pc' == Gone
    case EmitEnding(e) => s' == s.(log := s.log + [Announced(e)]) && pc' == Close
    case Close => s' == WithHere(s, None) && pc' == Gone
    case EndSession => s' == s.(listed := false) && pc' == Gone
    case Gone => false
  }

  ghost predicate Next(s: Sys, s': Sys) {
    || (exists pc :: Starts(pc) && s' == s.(threads := s.threads + [pc]))
    || (exists i, pc', m: Sys :: StepOf(s, i, pc', m) && s' == m.(threads := s.threads[i := pc']))
  }

  ghost predicate StepOf(s: Sys, i: int, pc': Pc, m: Sys) {
    0 <= i < |s.threads| && ThreadStep(s, s.threads[i], m, pc')
  }

  ghost predicate IsRun(run: seq<Sys>) {
    Runs.IsRun(run, Init, Next)
  }

  /** Attempts on an entry whose outcome is open or not yet undone. */
  function InFlight(threads: seq<Pc>, e: nat): nat {
    Count(threads, StartOpening(e)) + Count(threads, UndoOpening(e))
  }

  // An opening turn is attempted only with the control channel and the response runtime there.

  ghost predicate AttemptsReady(s: Sys) {
    forall e: nat | Attempted(e) in s.log ::
      e < |s.entries| && s.entries[e].controlReady && s.entries[e].response
  }

  lemma MoveKeepsReady(s: Sys, i: int, pc': Pc, m: Sys)
    requires AttemptsReady(s) && StepOf(s, i, pc', m)
    ensures AttemptsReady(m)
  {
    forall e: nat | Attempted(e) in m.log
      ensures e < |m.entries| && m.entries[e].controlReady && m.entries[e].response
    {
      AttemptsComeFrom(s, i, pc', m, e);
      ReadyStays(s, i, pc', m, e);
    }
  }

  lemma AttemptsComeFrom(s: Sys, i: int, pc': Pc, m: Sys, e: nat)
    requires StepOf(s, i, pc', m) && Attempted(e) in m.log
    ensures Attempted(e) in s.log || (e == s.current && MayOpen(Here(s)))
  {
  }

  lemma ReadyStays(s: Sys, i: int, pc': Pc, m: Sys, e: nat)
    requires StepOf(s, i, pc', m) && e < |s.entries| && s.entries[e].controlReady && s.entries[e].response
    ensures e < |m.entries| && m.entries[e].controlReady && m.entries[e].response
  {
  }

  /** In every run an attempt to open a turn was made only for an entry whose control channel was open and whose
      track had registered its response runtime. */
  lemma AttemptsAreReady(run: seq<Sys>, i: nat, e: nat)
    requires IsRun(run) && i < |run| && Attempted(e) in run[i].log
    ensures e < |run[i].entries| && run[i].entries[e].controlReady && run[i].entries[e].response
  {
    forall s, s' | AttemptsReady(s) && Next(s, s') ensures AttemptsReady(s') {
      if j, pc', m: Sys :| StepOf(s, j, pc', m) && s' == m.(threads := s.threads[j := pc']) {
        MoveKeepsReady(s, j, pc', m);
      }
    }
    Runs.Invariant(run, i, Init, Next, AttemptsReady);
  }

  // The invariant, entry by entry.

  /** Successes and attempts in flight are covered by the flag, except where another entry's failure
      cleared it. */
  ghost predicate OpeningsCovered(s: Sys, e: nat)
    requires e < |s.entries|
  {
    Count(s.log, Opened(e)) + InFlight(s.threads, e)
    <= Count(s.log, Reset(e)) + if s.entries[e].openingTurnStarted then 1 else 0
  }

  ghost predicate EndingsCovered(s: Sys, e: nat)
    requires e < |s.entries|
  {
    && Count(s.log, Announced(e)) + Count(s.threads, EmitEnding(e)) == Count(s.log, Scheduled(e))
    && Count(s.log, Scheduled(e)) == if s.entries[e].endingScheduled then 1 else 0
  }

  /** Nobody is stranded: with both there, an attempt has been made or some goroutine will look again. */
  ghost predicate Met(s: Sys, e: nat)
    requires e < |s.entries|
  {
    && (s.entries[e].openingTurnStarted ==> Attempted(e) in s.log)
    && (s.current == e && s.entries[e].controlReady && s.entries[e].response && !s.entries[e].endingScheduled ==>
          Attempted(e) in s.log || TryOpening in s.threads)
  }

  /** No attempt is made once the end is scheduled. */
  ghost predicate EndsAfterOpening(log: seq<Event>, e: nat) {
    forall i, j | 0 <= i < j < |log| && log[i] == Scheduled(e) :: log[j] != Attempted(e)
  }

  ghost predicate EntryInv(s: Sys, e: nat)
    requires e < |s.entries|
  {
    OpeningsCovered(s, e) && EndingsCovered(s, e) && Met(s, e) && EndsAfterOpening(s.log, e)
  }

  /** Nothing is on record about entries that do not exist yet. */
  ghost predicate Unborn(s: Sys, e: nat) {
    NoOpenings(s, e) && NoEndings(s, e)
  }

  ghost predicate NoOpenings(s: Sys, e: nat) {
    Count(s.log, Opened(e)) == 0 && InFlight(s.threads, e) == 0
  }

  ghost predicate NoEndings(s: Sys, e: nat) {
    Count(s.log, Announced(e)) == 0 && Count(s.threads, EmitEnding(e)) == 0 && Count(s.log, Scheduled(e)) == 0
  }

  ghost predicate Inv(s: Sys) {
    && -1 <= s.current < |s.entries|
    && (forall e: nat :: if e < |s.entries| then EntryInv(s, e) else Unborn(s, e))
    && (|s.entries| <= 1 ==> NeverReset(s))
  }

  ghost predicate NeverReset(s: Sys) {
    forall e: nat :: Reset(e) !in s.log
  }

  /** A step adds at most one event to the log. */
  lemma LogStep(s: Sys, i: int, pc': Pc, m: Sys)
    requires StepOf(s, i, pc', m)
    ensures m.log == s.log || (|m.log| == |s.log| + 1 && m.log == s.log + [m.log[|s.log|]])
  {
    assert s.log + [] == s.log;
  }

  lemma LogCounts(s: Sys, i: int, pc': Pc, m: Sys, x: Event)
    requires StepOf(s, i, pc', m)
    ensures s.log <= m.log
    ensures Count(m.log, x) == Count(s.log, x) + if |m.log| > |s.log| && m.log[|s.log|] == x then 1 else 0
  {
    LogStep(s, i, pc', m);
    if m.log != s.log {
      CountMore(s.log, m.log[|s.log|], x);
    }
  }

  lemma ThreadCounts(threads: seq<Pc>, i: nat, pc': Pc, e: nat)
    requires i < |threads|
    ensures var threads', pc := threads[i := pc'], threads[i];
      && InFlight(threads', e) == InFlight(threads, e)
         - (if pc == StartOpening(e) || pc == UndoOpening(e) then 1 else 0)
         + (if pc' == StartOpening(e) || pc' == UndoOpening(e) then 1 else 0)
      && Count(threads', EmitEnding(e)) == Count(threads, EmitEnding(e))
         - (if pc == EmitEnding(e) then 1 else 0) + (if pc' == EmitEnding(e) then 1 else 0)
  {
    CountMove(threads, i, pc', StartOpening(e));
    CountMove(threads, i, pc', UndoOpening(e));
    CountMove(threads, i, pc', EmitEnding(e));
  }

  /** The steps that are about opening turns. */
  predicate Opens(pc: Pc) {
    pc.TryOpening? || pc.StartOpening? || pc.UndoOpening?
  }

  lemma OpeningKeepsOpenings(s: Sys, i: int, pc': Pc, m: Sys, e: nat)
    requires StepOf(s, i, pc', m) && -1 <= s.current < |s.entries| && Opens(s.threads[i])
    requires if e < |s.entries| then OpeningsCovered(s, e) else NoOpenings(s, e)
    ensures var s' := m.(threads := s.threads[i := pc']);
      if e < |m.entries| then OpeningsCovered(s', e) else NoOpenings(s', e)
  {
    ThreadCounts(s.threads, i, pc', e);
    LogCounts(s, i, pc', m, Opened(e));
    LogCounts(s, i, pc', m, Reset(e));
  }

  lemma OthersKeepOpenings(s: Sys, i: int, pc': Pc, m: Sys, e: nat)
    requires StepOf(s, i, pc', m) && -1 <= s.current < |s.entries| && !Opens(s.threads[i])
    requires if e < |s.entries| then OpeningsCovered(s, e) else NoOpenings(s, e)
    ensures var s' := m.(threads := s.threads[i := pc']);
      if e < |m.entries| then OpeningsCovered(s', e) else NoOpenings(s', e)
  {
    ThreadCounts(s.threads, i, pc', e);
    LogCounts(s, i, pc', m, Opened(e));
    LogCounts(s, i, pc', m, Reset(e));
  }

  lemma StepKeepsOpenings(s: Sys, i: int, pc': Pc, m: Sys, e: nat)
    requires StepOf(s, i, pc', m) && -1 <= s.current < |s.entries|
    requires if e < |s.entries| then OpeningsCovered(s, e) else NoOpenings(s, e)
    ensures var s' := m.(threads := s.threads[i := pc']);
      if e < |m.entries| then OpeningsCovered(s', e) else NoOpenings(s', e)
  {
    if Opens(s.threads[i]) {
      OpeningKeepsOpenings(s, i, pc', m, e);
    } else {
      OthersKeepOpenings(s, i, pc', m, e);
    }
  }

  lemma EndingKeepsEndings(s: Sys, i: int, pc': Pc, m: Sys, e: nat)
    requires StepOf(s, i, pc', m) && -1 <= s.current < |s.entries|
    requires s.threads[i].ScheduleEnd? || s.threads[i].EmitEnding?
    requires if e < |s.entries| then EndingsCovered(s, e) else NoEndings(s, e)
    ensures var s' := m.(threads := s.threads[i := pc']);
      if e < |m.entries| then EndingsCovered(s', e) else NoEndings(s', e)
  {
    ThreadCounts(s.threads, i, pc', e);
    LogCounts(s, i, pc', m, Announced(e));
    LogCounts(s, i, pc', m, Scheduled(e));
  }

  lemma OthersKeepEndings(s: Sys, i: int, pc': Pc, m: Sys, e: nat)
    requires StepOf(s, i, pc', m) && -1 <= s.current < |s.entries|
    requires !s.threads[i].ScheduleEnd? && !s.threads[i].EmitEnding?
    requires if e < |s.entries| then EndingsCovered(s, e) else NoEndings(s, e)
    ensures var s' := m.(threads := s.threads[i := pc']);
      if e < |m.entries| then EndingsCovered(s', e) else NoEndings(s', e)
  {
    ThreadCounts(s.threads, i, pc', e);
    LogCounts(s, i, pc', m, Announced(e));
    LogCounts(s, i, pc', m, Scheduled(e));
  }

  lemma StepKeepsEndings(s: Sys, i: int, pc': Pc, m: Sys, e: nat)
    requires StepOf(s, i, pc', m) && -1 <= s.current < |s.entries|
    requires if e < |s.entries| then EndingsCovered(s, e) else NoEndings(s, e)
    ensures var s' := m.(threads := s.threads[i := pc']);
      if e < |m.entries| then EndingsCovered(s', e) else NoEndings(s', e)
  {
    if s.threads[i].ScheduleEnd? || s.threads[i].EmitEnding? {
      EndingKeepsEndings(s, i, pc', m, e);
    } else {
      OthersKeepEndings(s, i, pc', m, e);
    }
  }

  /** An attempt that is claimed is on record. */
  lemma ClaimKeepsMet(s: Sys, i: int, pc': Pc, m: Sys, e: nat)
    requires StepOf(s, i, pc', m) && s.threads[i] == TryOpening && -1 <= s.current < |s.entries|
    requires e < |s.entries| ==> Met(s, e)
    ensures e < |m.entries| ==> Met(m.(threads := s.threads[i := pc']), e)
  {
    if MayOpen(Here(s)) {
      assert m.log[|s.log|] == Attempted(s.current);
    }
  }

  lemma OthersKeepMet(s: Sys, i: int, pc': Pc, m: Sys, e: nat)
    requires StepOf(s, i, pc', m) && s.threads[i] != TryOpening && -1 <= s.current < |s.entries|
    requires e < |s.entries| ==> Met(s, e)
    ensures e < |m.entries| ==> Met(m.(threads := s.threads[i := pc']), e)
  {
    var threads' := s.threads[i := pc'];
    assert threads'[i] == pc';
    if TryOpening in s.threads {
      var t :| 0 <= t < |s.threads| && s.threads[t] == TryOpening;
      assert threads'[t] == TryOpening;
    }
  }

  lemma StepKeepsMet(s: Sys, i: int, pc': Pc, m: Sys, e: nat)
    requires StepOf(s, i, pc', m) && -1 <= s.current < |s.entries|
    requires e < |s.entries| ==> Met(s, e)
    ensures e < |m.entries| ==> Met(m.(threads := s.threads[i := pc']), e)
  {
    if s.threads[i] == TryOpening {
      ClaimKeepsMet(s, i, pc', m, e);
    } else {
      OthersKeepMet(s, i, pc', m, e);
    }
  }

  lemma StepKeepsOrder(s: Sys, i: int, pc': Pc, m: Sys, e: nat)
    requires StepOf(s, i, pc', m) && -1 <= s.current < |s.entries|
    requires if e < |s.entries| then EndingsCovered(s, e) && EndsAfterOpening(s.log, e) else Unborn(s, e)
    ensures e < |m.entries| ==> EndsAfterOpening(m.log, e)
  {
    LogStep(s, i, pc', m);
    CountPositive(s.log, Scheduled(e));
  }

  lemma StepKeepsNeverReset(s: Sys, i: int, pc': Pc, m: Sys)
    requires StepOf(s, i, pc', m) && Inv(s) && |m.entries| <= 1
    ensures NeverReset(m)
  {
    if s.threads[i].UndoOpening? {
      var e := s.threads[i].entry;
      CountPositive(s.threads, UndoOpening(e));
      assert InFlight(s.threads, e) > 0;
      assert !Unborn(s, e);
    }
  }

  lemma StartKeepsInv(s: Sys, pc: Pc)
    requires Inv(s) && Starts(pc)
    ensures Inv(s.(threads := s.threads + [pc]))
  {
    var s' := s.(threads := s.threads + [pc]);
    assert forall x | x in s.threads :: x in s'.threads;
    forall e: nat ensures if e < |s'.entries| then EntryInv(s', e) else Unborn(s', e) {
      CountMore(s.threads, pc, StartOpening(e));
      CountMore(s.threads, pc, UndoOpening(e));
      CountMore(s.threads, pc, EmitEnding(e));
      assert if e < |s.entries| then EntryInv(s, e) else Unborn(s, e);
    }
  }

  lemma MoveKeepsEntryInv(s: Sys, i: int, pc': Pc, m: Sys, e: nat)
    requires Inv(s) && StepOf(s, i, pc', m)
    ensures var s' := m.(threads := s.threads[i := pc']); if e < |s'.entries| then EntryInv(s', e) else Unborn(s', e)
  {
    assert if e < |s.entries| then EntryInv(s, e) else Unborn(s, e);
    StepKeepsOpenings(s, i, pc', m, e);
    StepKeepsEndings(s, i, pc', m, e);
    StepKeepsMet(s, i, pc', m, e);
    StepKeepsOrder(s, i, pc', m, e);
  }

  lemma MoveKeepsInv(s: Sys, i: int, pc': Pc, m: Sys)
    requires Inv(s) && StepOf(s, i, pc', m)
    ensures Inv(m.(threads := s.threads[i := pc']))
  {
    var s' := m.(threads := s.threads[i := pc']);
    forall e: nat ensures if e < |s'.entries| then EntryInv(s', e) else Unborn(s', e) {
      MoveKeepsEntryInv(s, i, pc', m, e);
    }
    if |m.entries| <= 1 {
      StepKeepsNeverReset(s, i, pc', m);
    }
  }

  lemma InvNext(s: Sys, s': Sys)
    requires Inv(s) && Next(s, s')
    ensures Inv(s')
  {
    if pc :| Starts(pc) && s' == s.(threads := s.threads + [pc]) {
      StartKeepsInv(s, pc);
    } else {
      var i, pc', m: Sys :| StepOf(s, i, pc', m) && s' == m.(threads := s.threads[i := pc']);
      MoveKeepsInv(s, i, pc', m);
    }
  }

  /** Every state of every run satisfies the invariant. */
  lemma RunKeepsInv(run: seq<Sys>, i: nat)
    requires IsRun(run) && i < |run|
    ensures Inv(run[i])
  {
    forall s, s' | Inv(s) && Next(s, s') ensures Inv(s') {
      InvNext(s, s');
    }
    Runs.Invariant(run, i, Init, Next, Inv);
  }

  /** For every interleaving and every entry: the opening turn is started at most once more often than
      failures of other entries cleared this one's flag; session.ending is sent at most once; and no
      opening turn is attempted after the end was scheduled. */
  lemma OpeningIsSafe(run: seq<Sys>, i: nat, e: nat)
    requires IsRun(run) && i < |run| && e < |run[i].entries|
    ensures Count(run[i].log, Opened(e)) <= 1 + Count(run[i].log, Reset(e))
    ensures Count(run[i].log, Announced(e)) <= 1
    ensures EndsAfterOpening(run[i].log, e)
  {
    RunKeepsInv(run, i);
    assert EntryInv(run[i], e);
  }

  /** No lost rendezvous: when every goroutine is gone and the current entry has both its control channel
      and its response runtime, an opening turn has been attempted unless the end is scheduled. */
  lemma NobodyIsStranded(run: seq<Sys>, i: nat)
    requires IsRun(run) && i < |run|
    requires forall t | 0 <= t < |run[i].threads| :: run[i].threads[t] == Gone
    requires Present(run[i]) && Here(run[i]).value.controlReady && Here(run[i]).value.response
    ensures Here(run[i]).value.endingScheduled || Attempted(run[i].current) in run[i].log
  {
    RunKeepsInv(run, i);
    assert EntryInv(run[i], run[i].current);
  }

  lemma NoneThere(threads: seq<Pc>, pc: Pc)
    requires forall t | 0 <= t < |threads| :: threads[t] == Gone
    requires pc != Gone
    ensures Count(threads, pc) == 0
  {
    CountPositive(threads, pc);
  }

  /** When every goroutine is gone, the end of every entry was announced exactly if it was scheduled. */
  lemma EndingsAreAnnounced(run: seq<Sys>, i: nat, e: nat)
    requires IsRun(run) && i < |run| && e < |run[i].entries|
    requires forall t | 0 <= t < |run[i].threads| :: run[i].threads[t] == Gone
    ensures Count(run[i].log, Announced(e)) == if run[i].entries[e].endingScheduled then 1 else 0
  {
    RunKeepsInv(run, i);
    assert EntryInv(run[i], e);
    NoneThere(run[i].threads, EmitEnding(e));
  }

  /** As long as the entry is the only one the table ever had, it greets at most once. */
  lemma OneEntryGreetsOnce(run: seq<Sys>, i: nat)
    requires IsRun(run) && i < |run| && |run[i].entries| == 1
    ensures Count(run[i].log, Opened(0)) <= 1
  {
    RunKeepsInv(run, i);
    assert EntryInv(run[i], 0);
    CountPositive(run[i].log, Reset(0));
  }
}
