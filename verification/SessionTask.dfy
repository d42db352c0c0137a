/** The session task (internal/session/task.go): the one mutex that arbitrates between all
    goroutines of a call. Its methods are atomic, so every interleaving of callers is some
    sequence of calls, and the lemmas here speak of every such sequence. */
module SessionTask {
  import opened Counting

  datatype State = Created | Negotiating | Active | Processing | Responding | Closing | Closed

  /** The fields the turn protocol depends on. */
  datatype Task = Task(state: State, turn: nat)

  const NEW_TASK := Task(Created, 0)

  datatype Call =
    | BeginNegotiation
    | MarkActive
    | StartTurn
    | EnsureTurn
    | StartResponse(id: int)
    | CompleteTurn(id: int)
    | Interrupt
    | End

  /** What a call tells its caller. */
  datatype Reply =
    | Refused
    | Done
    | Turn(id: nat, created: bool)
    | Stopped(id: nat, next: nat)

  /** What a call does to the life of a turn or of the session. */
  datatype Effect =
    | Nothing
    | Allotted(id: nat)
    | Answering(id: nat)
    | Completed(id: nat)
    | Interrupted(id: nat)
    | Abandoned(id: nat)
    | Ended

  predicate HasOpenTurn(t: Task) {
    t.state == Processing || t.state == Responding
  }

  function Apply(t: Task, c: Call): (Task, Reply) {
    match c
    case BeginNegotiation => if t.state == Created then (t.(state := Negotiating), Done) else (t, Refused)
    case MarkActive =>
      if t.state in {Negotiating, Processing, Responding, Created} then (t.(state := Active), Done) else (t, Refused)
    case StartTurn =>
      if t.state == Active then (Task(Processing, t.turn + 1), Turn(t.turn + 1, true)) else (t, Refused)
    case EnsureTurn =>
      if t.state == Active then (Task(Processing, t.turn + 1), Turn(t.turn + 1, true))
      else if HasOpenTurn(t) then (t, Turn(t.turn, false))
      else (t, Refused)
    case StartResponse(id) =>
      if t.state == Processing && id == t.turn then (t.(state := Responding), Done) else (t, Refused)
    case CompleteTurn(id) =>
      if id == t.turn && HasOpenTurn(t) then (t.(state := Active), Done) else (t, Refused)
    case Interrupt =>
      if HasOpenTurn(t) then (t.(state := Active), Stopped(t.turn, t.turn + 1)) else (t, Refused)
    case End => (t.(state := Closed), Done)
  }

  /** The effect of a call, read off the change of state. */
  function EffectOf(t: Task, c: Call): Effect {
    var (t', reply) := Apply(t, c);
    if t'.turn != t.turn then Allotted(t'.turn)
    else if t'.state == t.state then Nothing
    else if t'.state == Closed then Ended
    else if t'.state == Responding then Answering(t.turn)
    else if HasOpenTurn(t) then
      match c
      case CompleteTurn(_) => Completed(t.turn)
      case Interrupt => Interrupted(t.turn)
      case _ => Abandoned(t.turn)
    else Nothing
  }

  /** The life of one turn id. */
  datatype Phase = Unborn | Open | Answered | Finished | Broken

  function Advance(p: Phase, k: nat, e: Effect): Phase {
    match e
    case Nothing => p
    case Allotted(id) => if id != k then p else if p == Unborn then Open else Broken
    case Answering(id) => if id != k then p else if p == Open then Answered else Broken
    case Completed(id) => if id != k then p else Close(p)
    case Interrupted(id) => if id != k then p else Close(p)
    case Abandoned(id) => if id != k then p else Close(p)
    case Ended => if p == Open || p == Answered then Finished else p
  }

  function Close(p: Phase): Phase {
    if p == Open || p == Answered then Finished else Broken
  }

  function PhaseOf(k: nat, h: seq<Effect>): Phase {
    if h == [] then Unborn else Advance(PhaseOf(k, h[..|h| - 1]), k, h[|h| - 1])
  }

  function Allotments(h: seq<Effect>): seq<nat> {
    if h == [] then []
    else Allotments(h[..|h| - 1]) + if h[|h| - 1].Allotted? then [h[|h| - 1].id] else []
  }

  /** The history `h` of a task explains its present state: ids 1, 2, ..., turn have been allotted
      in this order, each id lived by the rules of Advance, and no id is open but the current one. */
  ghost predicate Explains(h: seq<Effect>, t: Task) {
    && Allotments(h) == seq(t.turn, i => i + 1)
    && (forall k: nat :: PhaseOf(k, h) == PhaseNow(k, t))
    && (Ended in h <==> t.state == Closed)
    && (HasOpenTurn(t) ==> t.turn > 0)
  }

  function PhaseNow(k: nat, t: Task): Phase {
    if k == 0 || k > t.turn then Unborn
    else if k == t.turn && t.state == Processing then Open
    else if k == t.turn && t.state == Responding then Answered
    else Finished
  }

  lemma NewTaskIsExplained()
    ensures Explains([], NEW_TASK)
  {
  }

  lemma ApplyKeepsExplained(h: seq<Effect>, t: Task, c: Call)
    requires Explains(h, t)
    ensures Explains(h + [EffectOf(t, c)], Apply(t, c).0)
  {
    var e := EffectOf(t, c);
    var h', t' := h + [e], Apply(t, c).0;
    assert h'[..|h|] == h;
    forall k: nat ensures PhaseOf(k, h') == PhaseNow(k, t') {
      assert PhaseOf(k, h) == PhaseNow(k, t);
    }
  }

  function RunCalls(t: Task, calls: seq<Call>): Task {
    if calls == [] then t else Apply(RunCalls(t, calls[..|calls| - 1]), calls[|calls| - 1]).0
  }

  function History(calls: seq<Call>): (h: seq<Effect>)
    ensures |h| == |calls|
  {
    if calls == [] then []
    else
      History(calls[..|calls| - 1]) + [EffectOf(RunCalls(NEW_TASK, calls[..|calls| - 1]), calls[|calls| - 1])]
  }

  /** However goroutines interleave their calls, the history of the task explains its state. */
  lemma {:induction false} EveryHistoryIsExplained(calls: seq<Call>)
    ensures Explains(History(calls), RunCalls(NEW_TASK, calls))
  {
    if calls != [] {
      var before := calls[..|calls| - 1];
      EveryHistoryIsExplained(before);
      ApplyKeepsExplained(History(before), RunCalls(NEW_TASK, before), calls[|calls| - 1]);
    }
  }

  // What an explained history says about single effects.

  predicate Closes(e: Effect, k: nat) {
    e == Completed(k) || e == Interrupted(k) || e == Abandoned(k)
  }

  lemma {:induction false} PhasesOnlyAdvance(k: nat, h: seq<Effect>, n: nat)
    requires n <= |h| && PhaseOf(k, h) != Broken
    ensures PhaseOf(k, h[..n]) != Broken
    ensures PhaseOf(k, h[..n]) == Finished ==> PhaseOf(k, h) == Finished
    ensures PhaseOf(k, h[..n]) == Answered ==> PhaseOf(k, h) in {Answered, Finished}
    ensures PhaseOf(k, h[..n]) == Open ==> PhaseOf(k, h) in {Open, Answered, Finished}
  {
    if n < |h| {
      PhasesOnlyAdvance(k, h[..|h| - 1], n);
      assert h[..|h| - 1][..n] == h[..n];
    } else {
      assert h[..n] == h;
    }
  }

  /** A turn is allotted once, answered at most once, and closed at most once: completion,
      interruption and abandonment of one id exclude each other. */
  lemma EachTurnLivesOnce(k: nat, h: seq<Effect>, i: nat, j: nat)
    requires PhaseOf(k, h) != Broken
    requires i < j < |h|
    ensures !(h[i] == Allotted(k) && h[j] == Allotted(k))
    ensures !(h[i] == Answering(k) && h[j] == Answering(k))
    ensures !(Closes(h[i], k) && Closes(h[j], k))
    ensures !(Closes(h[i], k) && (h[j] == Answering(k) || h[j] == Allotted(k)))
    ensures !(h[i] == Answering(k) && h[j] == Allotted(k))
  {
    PhasesOnlyAdvance(k, h, j + 1);
    assert h[..j + 1][..j] == h[..j];
    PhasesOnlyAdvance(k, h[..j], i + 1);
    assert h[..j][..i + 1] == h[..i + 1] && h[..i + 1][..i] == h[..i];
  }

  function Happened(h: seq<Effect>, f: Effect): nat {
    Count(h, f)
  }

  /** The same in numbers: how often each effect befell an id in any phase of its life. */
  lemma {:induction false} LivesOnce(k: nat, h: seq<Effect>)
    requires PhaseOf(k, h) != Broken
    ensures Happened(h, Allotted(k)) == if PhaseOf(k, h) == Unborn then 0 else 1
    ensures Happened(h, Answering(k)) <= if PhaseOf(k, h) in {Unborn, Open} then 0 else 1
    ensures Happened(h, Completed(k)) + Happened(h, Interrupted(k)) + Happened(h, Abandoned(k))
         <= if PhaseOf(k, h) == Finished then 1 else 0
  {
    if h != [] {
      LivesOnce(k, h[..|h| - 1]);
    }
  }

  lemma {:induction false} AllotmentsConcat(a: seq<Effect>, b: seq<Effect>)
    ensures Allotments(a + b) == Allotments(a) + Allotments(b)
  {
    if b == [] {
      assert a + b == a;
    } else {
      AllotmentsConcat(a, b[..|b| - 1]);
      assert (a + b)[..|a + b| - 1] == a + b[..|b| - 1];
    }
  }

  lemma {:induction false} NoAllotment(h: seq<Effect>)
    requires forall e | e in h :: !e.Allotted?
    ensures Allotments(h) == []
  {
    if h != [] {
      NoAllotment(h[..|h| - 1]);
    }
  }

  lemma NextAllotment(h: seq<Effect>, i: nat, j: nat, ti: Task, ci: Call, tj: Task, cj: Call)
    requires i < j < |h| && h[i] == EffectOf(ti, ci) && h[j] == EffectOf(tj, cj)
    requires |Allotments(h[..i + 1])| == Apply(ti, ci).0.turn && |Allotments(h[..j])| == tj.turn
    requires h[i].Interrupted? && h[j].Allotted?
    requires forall e | e in h[i + 1..j] :: !e.Allotted?
    ensures h[j].id == h[i].id + 1
    ensures Apply(ti, ci).1 == Stopped(h[i].id, h[j].id)
  {
    assert h[..i + 1] + h[i + 1..j] == h[..j];
    AllotmentsConcat(h[..i + 1], h[i + 1..j]);
    NoAllotment(h[i + 1..j]);
  }

  lemma CallStep(calls: seq<Call>, n: nat)
    requires n < |calls|
    ensures History(calls)[n] == EffectOf(RunCalls(NEW_TASK, calls[..n]), calls[n])
    ensures RunCalls(NEW_TASK, calls[..n + 1]) == Apply(RunCalls(NEW_TASK, calls[..n]), calls[n]).0
    ensures |Allotments(History(calls)[..n])| == RunCalls(NEW_TASK, calls[..n]).turn
    ensures |Allotments(History(calls)[..n + 1])| == RunCalls(NEW_TASK, calls[..n + 1]).turn
  {
    HistoryPrefix(calls, n);
    HistoryPrefix(calls, n + 1);
    EveryHistoryIsExplained(calls[..n]);
    EveryHistoryIsExplained(calls[..n + 1]);
    assert calls[..n + 1][..n] == calls[..n];
  }

  /** The first id allotted after turn k was interrupted is k + 1, the NextTurnID it announced. */
  lemma NextTurnAfterInterrupt(calls: seq<Call>, i: nat, j: nat)
    requires i < j < |calls|
    requires History(calls)[i].Interrupted? && History(calls)[j].Allotted?
    requires forall e | e in History(calls)[i + 1..j] :: !e.Allotted?
    ensures History(calls)[j].id == History(calls)[i].id + 1
    ensures Apply(RunCalls(NEW_TASK, calls[..i]), calls[i]).1 == Stopped(History(calls)[i].id, History(calls)[j].id)
  {
    CallStep(calls, i);
    CallStep(calls, j);
    NextAllotment(History(calls), i, j,
      RunCalls(NEW_TASK, calls[..i]), calls[i], RunCalls(NEW_TASK, calls[..j]), calls[j]);
  }

  lemma {:induction false} HistoryPrefix(calls: seq<Call>, n: nat)
    requires n <= |calls|
    ensures History(calls)[..n] == History(calls[..n])
    ensures n < |calls| ==> History(calls)[n] == EffectOf(RunCalls(NEW_TASK, calls[..n]), calls[n])
  {
    if calls == [] {
    } else if n == |calls| {
      HistoryPrefix(calls[..|calls| - 1], |calls| - 1);
      assert calls[..n] == calls;
    } else {
      HistoryPrefix(calls[..|calls| - 1], n);
      assert calls[..|calls| - 1][..n] == calls[..n];
    }
  }

  /** Closed is absorbing: after End no call has an effect, whatever it is. */
  lemma ClosedAbsorbs(t: Task, c: Call)
    requires t.state == Closed
    ensures Apply(t, c).0 == t && EffectOf(t, c) == Nothing
    ensures c != End ==> Apply(t, c).1 == Refused
  {
  }

  /** The task as the source keeps it: fields behind a mutex, changed in place. Each method is one
      critical section; `now` stands for the clock. */
  class TaskObject {
    var state: State
    var currentTurn: nat
    var updatedAt: int
    const idleTimeout: int

    function Abs(): Task
      reads this
    {
      Task(state, currentTurn)
    }

    constructor (idleTimeout: int, now: int)
      ensures Abs() == NEW_TASK && updatedAt == now && this.idleTimeout == idleTimeout
    {
      state, currentTurn, updatedAt := Created, 0, now;
      this.idleTimeout := idleTimeout;
    }

    method BeginNegotiation(now: int) returns (ok: bool)
      modifies this
      ensures Apply(old(Abs()), Call.BeginNegotiation) == (Abs(), if ok then Done else Refused)
      ensures updatedAt == if ok then now else old(updatedAt)
    {
      if state != Created {
        return false;
      }
      state, updatedAt := Negotiating, now;
      return true;
    }

    method MarkActive(now: int) returns (ok: bool)
      modifies this
      ensures Apply(old(Abs()), Call.MarkActive) == (Abs(), if ok then Done else Refused)
      ensures updatedAt == if ok then now else old(updatedAt)
    {
      match state {
        case Negotiating | Processing | Responding | Created =>
          state, updatedAt := Active, now;
          return true;
        case _ =>
          return false;
      }
    }

    method StartTurn(now: int) returns (id: nat, ok: bool)
      modifies this
      ensures Apply(old(Abs()), Call.StartTurn) == (Abs(), if ok then Turn(id, true) else Refused)
      ensures updatedAt == if ok then now else old(updatedAt)
      ensures !ok ==> id == 0
    {
      if state != Active {
        return 0, false;
      }
      currentTurn := currentTurn + 1;
      state, updatedAt := Processing, now;
      return currentTurn, true;
    }

    method EnsureTurn(now: int) returns (id: nat, created: bool, ok: bool)
      modifies this
      ensures Apply(old(Abs()), Call.EnsureTurn) == (Abs(), if ok then Turn(id, created) else Refused)
      ensures created <==> old(state) == Active
      ensures ok && !created <==> old(state) == Processing || old(state) == Responding
      ensures updatedAt == if ok && created then now else old(updatedAt)
      ensures !ok ==> id == 0 && !created
    {
      match state {
        case Active =>
          currentTurn := currentTurn + 1;
          state, updatedAt := Processing, now;
          return currentTurn, true, true;
        case Processing | Responding =>
          return currentTurn, false, true;
        case _ =>
          return 0, false, false;
      }
    }

    method StartResponse(id: int, now: int) returns (ok: bool)
      modifies this
      ensures Apply(old(Abs()), Call.StartResponse(id)) == (Abs(), if ok then Done else Refused)
      ensures updatedAt == if ok then now else old(updatedAt)
    {
      if state != Processing {
        return false;
      }
      if id != currentTurn {
        return false;
      }
      state, updatedAt := Responding, now;
      return true;
    }

    method CompleteTurn(id: int, now: int) returns (ok: bool)
      modifies this
      ensures Apply(old(Abs()), Call.CompleteTurn(id)) == (Abs(), if ok then Done else Refused)
      ensures updatedAt == if ok then now else old(updatedAt)
    {
      if id != currentTurn {
        return false;
      }
      if state != Processing && state != Responding {
        return false;
      }
      state, updatedAt := Active, now;
      return true;
    }

    method Interrupt(now: int) returns (interrupted: nat, next: nat, ok: bool)
      modifies this
      ensures Apply(old(Abs()), Call.Interrupt) == (Abs(), if ok then Stopped(interrupted, next) else Refused)
      ensures updatedAt == if ok then now else old(updatedAt)
      ensures !ok ==> interrupted == next == 0
    {
      if state != Processing && state != Responding {
        return 0, 0, false;
      }
      var current := currentTurn;
      state, updatedAt := Active, now;
      return current, current + 1, true;
    }

    method End(now: int)
      modifies this
      ensures Apply(old(Abs()), Call.End) == (Abs(), Done)
      ensures updatedAt == if old(state) == Closed then old(updatedAt) else now
    {
      if state == Closed {
        return;
      }
      state, updatedAt := Closing, now;
      state, updatedAt := Closed, now;
    }
  }
}
