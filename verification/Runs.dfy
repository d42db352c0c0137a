/** Finite runs of a state machine: they start in an initial state, and neighbours are one step apart. */
module Runs {

  ghost predicate StepAt<S>(run: seq<S>, i: nat, next: (S, S) -> bool)
    requires 0 < i < |run|
  {
    next(run[i - 1], run[i])
  }

  ghost predicate IsRun<S>(run: seq<S>, init: S -> bool, next: (S, S) -> bool) {
    && run != [] && init(run[0])
    && forall i | 0 < i < |run| :: StepAt(run, i, next)
  }

  function Last<S>(run: seq<S>): S
    requires run != []
  {
    run[|run| - 1]
  }

  lemma Begin<S>(s: S, init: S -> bool, next: (S, S) -> bool)
    requires init(s)
    ensures IsRun([s], init, next)
  {
  }

  lemma Extend<S>(run: seq<S>, s: S, init: S -> bool, next: (S, S) -> bool)
    requires IsRun(run, init, next) && next(Last(run), s)
    ensures IsRun(run + [s], init, next)
  {
    var more := run + [s];
    forall i | 0 < i < |more| ensures StepAt(more, i, next) {
      if i < |run| {
        assert StepAt(run, i, next);
      }
    }
  }

  /** run' goes on from run. */
  ghost predicate Continues<S>(run: seq<S>, run': seq<S>, init: S -> bool, next: (S, S) -> bool) {
    run != [] && IsRun(run', init, next) && run <= run'
  }

  lemma Go<S>(run: seq<S>, s: S, init: S -> bool, next: (S, S) -> bool) returns (run': seq<S>)
    requires IsRun(run, init, next) && next(Last(run), s)
    ensures Continues(run, run', init, next) && |run'| == |run| + 1 && Last(run') == s
  {
    Extend(run, s, init, next);
    run' := run + [s];
  }

  lemma Prefix<S>(run: seq<S>, i: nat, init: S -> bool, next: (S, S) -> bool)
    requires IsRun(run, init, next) && i < |run|
    ensures IsRun(run[..i + 1], init, next)
  {
    var prefix := run[..i + 1];
    forall j | 0 < j < |prefix| ensures StepAt(prefix, j, next) {
      assert StepAt(run, j, next);
    }
  }

  /** What holds at first and is kept by every step holds in every state of every run. */
  lemma {:induction false} Invariant<S(!new)>(run: seq<S>, i: nat, init: S -> bool, next: (S, S) -> bool,
                                              inv: S -> bool)
    requires IsRun(run, init, next) && i < |run|
    requires forall s | init(s) :: inv(s)
    requires forall s, t | inv(s) && next(s, t) :: inv(t)
    ensures inv(run[i])
  {
    if i > 0 {
      Invariant(run, i - 1, init, next, inv);
      assert StepAt(run, i, next);
    }
  }

  /** What every step keeps once it holds keeps holding. */
  lemma {:induction false} Stable<S(!new)>(run: seq<S>, i: nat, j: nat, init: S -> bool, next: (S, S) -> bool,
                                           inv: S -> bool, p: S -> bool)
    requires IsRun(run, init, next) && i <= j < |run| && p(run[i])
    requires forall k | 0 <= k < |run| :: inv(run[k])
    requires forall s, t | inv(s) && p(s) && next(s, t) :: p(t)
    ensures p(run[j])
  {
    if i < j {
      Stable(run, i, j - 1, init, next, inv, p);
      assert StepAt(run, j, next);
      assert inv(run[j - 1]);
    }
  }
}
