/** When session.ending comes after the last turn.completed: of runs that have come to rest, and of all that
    can still happen once the end is announced; with the runs that break it. */
module EndingOrder {
  import opened Counting
  import opened SessionTask
  import opened TurnProtocol
  import opened TurnEnding
  import opened LateCompletions
  import opened CompletionWays
  import Runs

  /** The order is about what stands before an ending and behind it. */
  lemma InOrderAround(run: seq<Sys>, i: nat, j: nat, k: nat, own: bool)
    requires IsRun(run) && 0 < i <= j < |run| && SendsEnding(run[i - 1], run[i], k, own)
    ensures run[i].log <= run[j].log
    ensures InOrderAt(run[j].log, |run[i - 1].log|) <==>
      (TurnCompleted(k) in run[i - 1].log && forall m: nat :: TurnCompleted(m) !in run[j].log[|run[i].log|..])
  {
    RunGrows(run, i, j);
    var log, p := run[j].log, |run[i - 1].log|;
    assert log[..p] == run[i - 1].log;
    var after := log[p + 1..];
    assert forall q | p < q < |log| :: log[q] == after[q - p - 1];
    if forall m: nat :: TurnCompleted(m) !in after {
      forall q | p < q < |log| ensures !log[q].TurnCompleted? {
        assert log[q] == after[q - p - 1];
      }
    }
  }

  lemma ToldBefore(run: seq<Sys>, i: nat, k: nat, own: bool)
    requires IsRun(run) && 0 < i < |run| && SendsEnding(run[i - 1], run[i], k, own)
    ensures TurnCompleted(k) in run[i - 1].log
      <==> Happened(run[i].effects, Completed(k)) == 1 && OwedByAll(run[i].threads, Completed(k)) == 0
  {
    RunKeepsInv(run, i);
    assert Conserved(run[i], Completed(k));
    TurnProtocolIsSafe(run, i, k, 0);
    ToldIfIn(run[i].log, k);
    var n := |run[i - 1].log|;
    assert run[i].log == run[i - 1].log + [run[i].log[n]];
  }

  lemma {:induction false} HappenedGrows(run: seq<Sys>, i: nat, j: nat, f: Effect)
    requires IsRun(run) && i <= j < |run|
    ensures Happened(run[i].effects, f) <= Happened(run[j].effects, f)
  {
    if i < j {
      HappenedGrows(run, i, j - 1, f);
      assert Runs.StepAt(run, j, Next);
      NextAddsEffects(run[j - 1], run[j], f);
    }
  }

  lemma NextAddsEffects(s: Sys, s': Sys, f: Effect)
    requires Next(s, s')
    ensures Happened(s.effects, f) <= Happened(s'.effects, f)
  {
    if pc :| Starts(pc) && s' == s.(threads := s.threads + [pc]) {
    } else {
      var i, pc', n: Sys :| StepOf(s, i, pc', n) && s' == n.(threads := s.threads[i := pc']);
      var c := StepCallsOnce(s, s.threads[i], n, pc');
      CallBooks(s, c, f);
    }
  }

  /** Nobody owes the completion of m in s, and it is not completed on the way to s'. */
  ghost predicate NoneToldAfter(s: Sys, s': Sys, m: nat) {
    OwedByAll(s.threads, Completed(m)) == 0 && Happened(s'.effects, Completed(m)) == Happened(s.effects, Completed(m))
  }

  /** A run that comes to rest keeps the promised order exactly if, when its end was announced, the turn
      that ended was completed, no completion had still to be told, and none was made after it. */
  lemma OrderExactly(run: seq<Sys>, i: nat, j: nat, k: nat, own: bool)
    requires IsRun(run) && 0 < i <= j < |run| && SendsEnding(run[i - 1], run[i], k, own)
    requires forall t | 0 <= t < |run[j].threads| :: run[j].threads[t] == Gone
    ensures run[i].log <= run[j].log
    ensures InOrderAt(run[j].log, |run[i - 1].log|) <==>
      (Happened(run[i].effects, Completed(k)) == 1 && forall m: nat :: NoneToldAfter(run[i], run[j], m))
  {
    InOrderAround(run, i, j, k, own);
    ToldBefore(run, i, k, own);
    forall m: nat
      ensures TurnCompleted(m) !in run[j].log[|run[i].log|..] <==> NoneToldAfter(run[i], run[j], m)
    {
      ToldSince(run, i, j, m);
      NothingOwed(run[j].threads, Completed(m));
      ToldIfIn(run[j].log[|run[i].log|..], m);
      HappenedGrows(run, i, j, Completed(m));
    }
  }

  /** Nothing that can still happen breaks the order of the ending that run has just announced. */
  ghost predicate Guaranteed(run: seq<Sys>, scope: Scope)
    requires |run| > 1
  {
    var p := |run[|run| - 2].log|;
    forall run' | Goes(run, run', scope) ::
      var log := Runs.Last(run').log; p < |log| && log[p].SessionEnding? && InOrderAt(log, p)
  }

  lemma OrderOf(run: seq<Sys>, run': seq<Sys>, scope: Scope, k: nat, own: bool)
    requires IsRun(run) && |run| > 1 && SendsEnding(run[|run| - 2], Runs.Last(run), k, own) && Goes(run, run', scope)
    ensures var log, p := Runs.Last(run').log, |run[|run| - 2].log|;
      && p < |log| && log[p].SessionEnding?
      && (InOrderAt(log, p) <==> TurnCompleted(k) in run[|run| - 2].log && forall m: nat :: !Tells(run, run', scope, m))
  {
    var i := |run| - 1;
    assert run'[i] == run[i] && run'[i - 1] == run[i - 1];
    InOrderAround(run', i, |run'| - 1, k, own);
    assert forall m: nat :: Tells(run, run', scope, m) <==> TurnCompleted(m) in Runs.Last(run').log[|run[i].log|..];
  }

  /** When the end is announced, everything that can still happen keeps the promised order exactly if the
      completion of the turn has been told, no other is owed, and no other can be made any more. */
  lemma OrderGuaranteedExactly(run: seq<Sys>, scope: Scope, k: nat, own: bool)
    requires IsRun(run) && |run| > 1 && SendsEnding(run[|run| - 2], Runs.Last(run), k, own)
    ensures Guaranteed(run, scope) <==>
      (TurnCompleted(k) in run[|run| - 2].log && Settled(Runs.Last(run), scope)
       && forall m: nat :: OwedByAll(Runs.Last(run).threads, Completed(m)) == 0)
  {
    var s := Runs.Last(run);
    assert Goes(run, run, scope);
    OrderOf(run, run, scope, k, own);
    SettledExactly(s, scope);
    if Guaranteed(run, scope) {
      forall m: nat ensures OwedByAll(s.threads, Completed(m)) == 0 && !CanComplete(s, scope, m) {
        FollowsExactly(run, scope, m);
        if run' :| Tells(run, run', scope, m) {
          OrderOf(run, run', scope, k, own);
        }
      }
    } else {
      var run' :| Goes(run, run', scope) && !(var log, p := Runs.Last(run').log, |run[|run| - 2].log|;
                                              p < |log| && log[p].SessionEnding? && InOrderAt(log, p));
      OrderOf(run, run', scope, k, own);
      if TurnCompleted(k) in run[|run| - 2].log {
        var m: nat :| Tells(run, run', scope, m);
        OnlyTheseFollow(run, run', scope, m);
      }
    }
  }
}
