/** Which turns can still be completed. Once the end is scheduled, no opening turn is claimed and no speech
    is let in (internal/app/bot/rtc_manager.go); a recognizer's final comes only from a stream that speech
    started. A turn started over HTTP or by an interrupt hint has nobody to complete it. */
module LateCompletions {
  import opened Counting
  import opened SessionTask
  import opened TurnProtocol
  import opened TurnEnding
  import Runs

  /** Turn m is over: it can be neither completed nor opened any more. */
  predicate Past(m: nat, t: Task) {
    m < t.turn || (m == t.turn && !HasOpenTurn(t))
  }

  predicate BeingAnswered(m: nat, t: Task) {
    m == t.turn && t.state == Responding
  }

  /** What a goroutine does after its messages. */
  function Core(pc: Pc): Pc {
    match pc
    case Tell(_, rest) => Core(rest)
    case _ => pc
  }

  /** Which continuations are meant: those in which no further entry of the session table is made, or all. */
  datatype Scope = SameEntry | AnyEntry

  /** The best the entry can be in the continuations that are meant. */
  function Best(s: Sys, scope: Scope): Entry {
    if scope == SameEntry then s.entry else Live(0)
  }

  /** With an entry that is e at best, a goroutine at this step can bring about the completion of turn m:
      it is a stream or a run of m; it may become a stream of any turn, for speech that was let in reads the
      turn that is current when it gets there, unless that is being answered when it looks, and then it is
      interrupted; or it will open a later turn. */
  predicate Leads(e: Entry, t: Task, pc: Pc, m: nat) {
    match pc
    case Calling(Complete(k, _)) => k == m
    case Calling(RunRespond(k, _)) => k == m && !BeingAnswered(m, t)
    case Calling(OpeningTurn) => t.turn < m
    case Calling(VadInterrupt) => e != Absent && t.turn < m
    case Calling(VadEnsure) => e != Absent
    case Table(AsrLook) => e != Absent
    case Looking(VadLook) => e != Absent && !BeingAnswered(m, t)
    case Looking(SpeechStart) => true
    case Looking(Stream(k)) => k == m
    case Looking(RunWork(k, _)) => k == m
    case _ => false
  }

  predicate AnyLeads(e: Entry, s: Sys, m: nat) {
    exists i :: 0 <= i < |s.threads| && Leads(e, s.task, Core(s.threads[i]), m)
  }

  /** Turn m can still be completed: the session is not over, the turn is open or to come, and either
      speech can still be let in, or some goroutine leads there. */
  predicate CanComplete(s: Sys, scope: Scope, m: nat) {
    && s.listed && !Past(m, s.task)
    && ((Best(s, scope).Live? && !BeingAnswered(m, s.task)) || AnyLeads(Best(s, scope), s, m))
  }

  // Nothing else completes it.

  predicate AtMost(x: Entry, y: Entry) {
    (x.Live? ==> y.Live?) && (x != Absent ==> y != Absent)
  }

  lemma PastStays(t: Task, c: Call, m: nat)
    ensures Past(m, t) ==> Past(m, Apply(t, c).0) && EffectOf(t, c) != Completed(m)
    ensures t.turn <= Apply(t, c).0.turn
    ensures !Past(m, Apply(t, c).0) && BeingAnswered(m, t) ==> BeingAnswered(m, Apply(t, c).0)
  {
  }

  /** What leads to m after a step led there before, if m is not over. */
  lemma LeadsBefore(e: Entry, e': Entry, t: Task, t': Task, pc: Pc, m: nat)
    requires AtMost(e', e) && Leads(e', t', pc, m)
    requires t.turn <= t'.turn && (BeingAnswered(m, t) ==> BeingAnswered(m, t'))
    ensures Leads(e, t, pc, m)
  {
  }

  lemma CoreOfTell(x: Event, rest: Pc)
    ensures Core(Tell(x, rest)) == Core(rest)
  {
  }

  lemma CoreOfInterrupt(pc: Pc, k: nat, next: nat, rest: Pc)
    requires AfterInterrupt(pc, k, next, rest)
    ensures Core(pc) == Core(rest)
  {
    assert Core(pc) == Core(pc.rest) == Core(pc.rest.rest);
  }

  lemma CallLeadsFrom(e: Entry, t: Task, c: Caller, pc': Pc, m: nat)
    requires After(c, t.turn, Apply(t, CallOf(c)).1, pc')
    requires !Past(m, Apply(t, CallOf(c)).0) && Leads(e, Apply(t, CallOf(c)).0, Core(pc'), m)
    ensures Leads(e, t, Calling(c), m)
  {
    var reply := Apply(t, CallOf(c)).1;
    if (c.VadInterrupt? || c.HintInterrupt?) && reply.Stopped? {
      CoreOfInterrupt(pc', reply.id, reply.next, if c.VadInterrupt? then Calling(VadEnsure) else Gone);
    } else if pc'.Tell? {
      assert Core(pc') == Core(pc'.rest);
      if pc'.rest.Tell? {
        assert Core(pc'.rest) == Core(pc'.rest.rest);
      }
    }
  }

  lemma TableLeadsFrom(s: Sys, t: Section, s': Sys, pc': Pc, e: Entry, e': Entry, m: nat)
    requires TableStep(s, t, s', pc') && (e == s.entry || e.Live?) && AtMost(e', e)
    requires !Past(m, s.task) && Leads(e', s.task, Core(pc'), m)
    ensures Leads(e, s.task, Table(t), m) || (e.Live? && !BeingAnswered(m, s.task))
  {
    if pc'.Tell? {
      CoreOfTell(pc'.event, pc'.rest);
    }
  }

  lemma LookLeadsFrom(t: Task, l: Look, pc': Pc, e: Entry, e': Entry, m: nat)
    requires Looks(true, t, l, pc') && AtMost(e', e) && !Past(m, t) && Leads(e', t, Core(pc'), m)
    ensures Leads(e, t, Looking(l), m)
  {
    if pc'.Tell? {
      assert Core(pc') == Core(pc'.rest);
    }
  }

  /** A goroutine that leads to m after its step led there before, unless the step has just let it in. */
  lemma StepLeadsFrom(s: Sys, pc: Pc, s': Sys, pc': Pc, e: Entry, e': Entry, m: nat)
    requires ThreadStep(s, pc, s', pc') && (e == s.entry || e.Live?) && AtMost(e', e)
    requires s.listed && !Past(m, s'.task) && Leads(e', s'.task, Core(pc'), m)
    ensures Leads(e, s.task, Core(pc), m) || (e.Live? && !BeingAnswered(m, s.task))
  {
    match pc {
      case Tell(_, rest) =>
        assert Core(pc) == Core(rest);
        LeadsBefore(e, e', s.task, s.task, Core(rest), m);
      case Calling(c) =>
        CallLeadsFrom(e', s.task, c, pc', m);
        LeadsBefore(e, e', s.task, s.task, Calling(c), m);
      case Table(t) => TableLeadsFrom(s, t, s', pc', e, e', m);
      case Looking(l) => LookLeadsFrom(s.task, l, pc', e, e', m);
    }
  }

  lemma StepCompletes(s: Sys, pc: Pc, s': Sys, pc': Pc, m: nat)
    requires ThreadStep(s, pc, s', pc')
    ensures s'.listed ==> s.listed
    ensures s.task.turn <= s'.task.turn
    ensures Past(m, s.task) ==> Past(m, s'.task)
    ensures !Past(m, s'.task) && BeingAnswered(m, s.task) ==> BeingAnswered(m, s'.task)
    ensures Happened(s'.effects, Completed(m)) == Happened(s.effects, Completed(m))
            || (s.listed && !Past(m, s.task) && pc.Calling? && pc.caller.Complete? && pc.caller.id == m)
  {
    var c := StepCallsOnce(s, pc, s', pc');
    PastStays(s.task, c, m);
    CallBooks(s, c, Completed(m));
  }

  lemma StepKeepsBest(s: Sys, pc: Pc, s': Sys, pc': Pc, scope: Scope)
    requires ThreadStep(s, pc, s', pc') && (scope == SameEntry ==> s'.entries == s.entries)
    ensures AtMost(Best(s', scope), Best(s, scope)) && s.entries <= s'.entries && s'.threads == s.threads
  {
  }

  lemma MoveOpensNoWay(s: Sys, i: int, pc': Pc, n: Sys, scope: Scope, m: nat)
    requires StepOf(s, i, pc', n) && (scope == SameEntry ==> n.entries == s.entries)
    requires CanComplete(n.(threads := s.threads[i := pc']), scope, m)
    ensures CanComplete(s, scope, m)
  {
    var s' := n.(threads := s.threads[i := pc']);
    var e, e' := Best(s, scope), Best(s', scope);
    StepCompletes(s, s.threads[i], n, pc', m);
    StepKeepsBest(s, s.threads[i], n, pc', scope);
    if !(e'.Live? && !BeingAnswered(m, s'.task)) {
      var j :| 0 <= j < |s'.threads| && Leads(e', s'.task, Core(s'.threads[j]), m);
      ThreadOpensNoWay(s, i, pc', n, j, e, e', m);
    }
  }

  lemma ThreadOpensNoWay(s: Sys, i: int, pc': Pc, n: Sys, j: nat, e: Entry, e': Entry, m: nat)
    requires StepOf(s, i, pc', n) && (e == s.entry || e.Live?) && AtMost(e', e)
    requires s.listed && !Past(m, n.task) && s.task.turn <= n.task.turn
    requires BeingAnswered(m, s.task) ==> BeingAnswered(m, n.task)
    requires j < |s.threads| && Leads(e', n.task, Core(s.threads[i := pc'][j]), m)
    ensures AnyLeads(e, s, m) || (e.Live? && !BeingAnswered(m, s.task))
  {
    if j == i {
      StepLeadsFrom(s, s.threads[i], n, pc', e, e', m);
    } else {
      LeadsBefore(e, e', s.task, n.task, Core(s.threads[j]), m);
    }
  }

  lemma MoveCompletes(s: Sys, i: int, pc': Pc, n: Sys, scope: Scope, m: nat)
    requires StepOf(s, i, pc', n) && !CanComplete(s, scope, m)
    ensures Happened(n.effects, Completed(m)) == Happened(s.effects, Completed(m))
  {
    StepCompletes(s, s.threads[i], n, pc', m);
    assert Leads(Best(s, scope), s.task, Core(s.threads[i]), m) ==> AnyLeads(Best(s, scope), s, m);
  }

  lemma StartsLeadNowhere(e: Entry, t: Task, pc: Pc, m: nat)
    requires Starts(pc)
    ensures !Leads(e, t, Core(pc), m)
  {
  }

  lemma NextOpensNoWay(s: Sys, s': Sys, scope: Scope, m: nat)
    requires Next(s, s') && !CanComplete(s, scope, m) && (scope == SameEntry ==> s'.entries == s.entries)
    ensures !CanComplete(s', scope, m) && Happened(s'.effects, Completed(m)) == Happened(s.effects, Completed(m))
  {
    if pc :| Starts(pc) && s' == s.(threads := s.threads + [pc]) {
      if CanComplete(s', scope, m) {
        var i :| 0 <= i < |s'.threads| && Leads(Best(s, scope), s.task, Core(s'.threads[i]), m);
        StartsLeadNowhere(Best(s, scope), s.task, pc, m);
      }
    } else {
      var i, pc', n: Sys :| StepOf(s, i, pc', n) && s' == n.(threads := s.threads[i := pc']);
      MoveCompletes(s, i, pc', n, scope, m);
      if CanComplete(s', scope, m) {
        MoveOpensNoWay(s, i, pc', n, scope, m);
      }
    }
  }

  lemma NextGrows(s: Sys, s': Sys)
    requires Next(s, s')
    ensures s.log <= s'.log && s.entries <= s'.entries
  {
    if pc :| Starts(pc) && s' == s.(threads := s.threads + [pc]) {
    } else {
      var i, pc', n: Sys :| StepOf(s, i, pc', n) && s' == n.(threads := s.threads[i := pc']);
    }
  }

  lemma {:induction false} RunGrows(run: seq<Sys>, i: nat, j: nat)
    requires IsRun(run) && i <= j < |run|
    ensures run[i].log <= run[j].log && run[i].entries <= run[j].entries
  {
    if i < j {
      RunGrows(run, i, j - 1);
      assert Runs.StepAt(run, j, Next);
      NextGrows(run[j - 1], run[j]);
    }
  }

  lemma {:induction false} NothingCompletes(run: seq<Sys>, i: nat, j: nat, scope: Scope, m: nat)
    requires IsRun(run) && i <= j < |run| && !CanComplete(run[i], scope, m)
    requires scope == SameEntry ==> run[j].entries == run[i].entries
    ensures !CanComplete(run[j], scope, m)
    ensures Happened(run[j].effects, Completed(m)) == Happened(run[i].effects, Completed(m))
  {
    if i < j {
      RunGrows(run, i, j - 1);
      assert Runs.StepAt(run, j, Next);
      NextGrows(run[j - 1], run[j]);
      NothingCompletes(run, i, j - 1, scope, m);
      NextOpensNoWay(run[j - 1], run[j], scope, m);
    }
  }

  /** The completions told between two states: those owed at first, or made in between, and not owed at last. */
  lemma ToldSince(run: seq<Sys>, i: nat, j: nat, m: nat)
    requires IsRun(run) && i <= j < |run|
    ensures run[i].log <= run[j].log
    ensures Told(run[j].log[|run[i].log|..], Completed(m)) + OwedByAll(run[j].threads, Completed(m))
         == OwedByAll(run[i].threads, Completed(m))
            + Happened(run[j].effects, Completed(m)) - Happened(run[i].effects, Completed(m))
  {
    RunGrows(run, i, j);
    RunKeepsInv(run, i);
    RunKeepsInv(run, j);
    assert Conserved(run[i], Completed(m)) && Conserved(run[j], Completed(m));
    assert run[j].log == run[i].log + run[j].log[|run[i].log|..];
    TotalConcat(run[i].log, run[j].log[|run[i].log|..], Announcing(Completed(m)));
  }

  /** run' goes on from run, within the scope. */
  ghost predicate Goes(run: seq<Sys>, run': seq<Sys>, scope: Scope) {
    && Runs.Continues(run, run', Init, Next)
    && (scope == SameEntry ==> Runs.Last(run').entries == Runs.Last(run).entries)
  }

  /** The completion of turn m is told after run. */
  ghost predicate Tells(run: seq<Sys>, run': seq<Sys>, scope: Scope, m: nat) {
    && Goes(run, run', scope)
    && var before, after := Runs.Last(run).log, Runs.Last(run').log;
       before <= after && TurnCompleted(m) in after[|before|..]
  }

  lemma OnlyTheseFollow(run: seq<Sys>, run': seq<Sys>, scope: Scope, m: nat)
    requires Tells(run, run', scope, m)
    ensures OwedByAll(Runs.Last(run).threads, Completed(m)) > 0 || CanComplete(Runs.Last(run), scope, m)
  {
    var i, j := |run| - 1, |run'| - 1;
    assert run'[i] == Runs.Last(run);
    ToldSince(run', i, j, m);
    ToldIfIn(run'[j].log[|run'[i].log|..], m);
    if !CanComplete(run'[i], scope, m) {
      NothingCompletes(run', i, j, scope, m);
    }
  }
}
