/** Packet endpointing (internal/app/bot/endpointing.go): frames, timers whose callbacks may come late,
    and the close, in any interleaving. Time is left out: a timer may fire at any moment. */
module Endpointer {
  import opened Arith
  import opened MuLaw
  import opened Outcome
  import Runs

  // Speech: the root mean square of a frame is at least 700. Both sides are squared, so that the sum
  // of squares and the count of samples decide; an empty frame is silent.

  const THRESHOLD := 700

  function SumOfSquares(s: seq<Sample>): nat {
    if s == [] then 0 else SumOfSquares(s[..|s| - 1]) + Squared(s[|s| - 1])
  }

  function Squared(x: Sample): nat {
    var y: int := x;
    if y < 0 then (-y) * (-y) else y * y
  }

  /** The order of the samples and their signs do not matter. */
  lemma {:induction false} SquaresAddUp(a: seq<Sample>, b: seq<Sample>)
    ensures SumOfSquares(a + b) == SumOfSquares(a) + SumOfSquares(b)
  {
    if b == [] {
      assert a + b == a;
    } else {
      SquaresAddUp(a, b[..|b| - 1]);
      assert (a + b)[..|a + b| - 1] == a + b[..|b| - 1];
    }
  }

  predicate HasSpeech(samples: seq<Sample>) {
    samples != [] && SumOfSquares(samples) >= THRESHOLD * THRESHOLD * |samples|
  }

  /** A frame louder than 700 throughout, to either side, is speech; one softer throughout is not. */
  lemma LoudIsSpeech(samples: seq<Sample>)
    requires samples != []
    ensures (forall i | 0 <= i < |samples| :: samples[i] <= -700 || samples[i] >= 700) ==> HasSpeech(samples)
    ensures (forall i | 0 <= i < |samples| :: -700 < samples[i] < 700) ==> !HasSpeech(samples)
  {
    SquaresBounded(samples);
  }

  lemma {:induction false} SquaresBounded(samples: seq<Sample>)
    ensures (forall i | 0 <= i < |samples| :: samples[i] <= -700 || samples[i] >= 700) ==>
      SumOfSquares(samples) >= 490_000 * |samples|
    ensures samples != [] && (forall i | 0 <= i < |samples| :: -700 < samples[i] < 700) ==>
      SumOfSquares(samples) < 490_000 * |samples|
  {
    if samples != [] {
      SquaresBounded(samples[..|samples| - 1]);
      SquareBounded(samples[|samples| - 1]);
    }
  }

  lemma SquareBounded(x: Sample)
    ensures Squared(x) >= 490_000 <==> x <= -700 || x >= 700
  {
    SquareAtLeast(if x < 0 then -(x as int) else x);
  }

  lemma SquareAtLeast(y: nat)
    ensures y * y >= 490_000 <==> y >= 700
  {
    if y >= 700 {
      MulLe(700, y, y);
    } else {
      MulLe(y, 700, y);
    }
  }

  /** The fields behind the mutex. Timers are numbered as they are started. */
  datatype Fields = Fields(active: bool, closed: bool, silenceTimer: Option<nat>)

  const IDLE := Fields(false, false, None)

  /** What a critical section does besides changing the fields. */
  datatype Effect = Nothing | SpeechStart | StartTimer | StopTimer(timer: nat) | StartAndStop(timer: nat) | UtteranceEnd

  function Observed(f: Fields, speech: bool, timer: nat): (Fields, Effect) {
    if f.closed then (f, Nothing)
    else if !speech then
      if f.active && f.silenceTimer.None? then (f.(silenceTimer := Some(timer)), StartTimer) else (f, Nothing)
    else
      (Fields(true, false, None),
       match f.silenceTimer
       case None => if f.active then Nothing else SpeechStart
       case Some(t) => if f.active then StopTimer(t) else StartAndStop(t))
  }

  function TimedOut(f: Fields): (Fields, Effect) {
    if f.closed || !f.active then (f, Nothing) else (f.(active := false), UtteranceEnd)
  }

  function Shut(f: Fields): (Fields, Effect) {
    (Fields(f.active, true, None), match f.silenceTimer case None => Nothing case Some(t) => StopTimer(t))
  }

  class PacketEndpointer {
    var active: bool
    var closed: bool
    var silenceTimer: Option<nat>

    function Abs(): Fields
      reads this
    {
      Fields(active, closed, silenceTimer)
    }

    constructor ()
      ensures Abs() == IDLE
    {
      active, closed, silenceTimer := false, false, None;
    }

    /** `timer` is the number of the timer that time.AfterFunc would start. */
    method ObserveFrame(samples: seq<Sample>, timer: nat) returns (effect: Effect)
      modifies this
      ensures (Abs(), effect) == Observed(old(Abs()), HasSpeech(samples), timer)
      ensures old(closed) ==> unchanged(this) && effect == Nothing
      ensures !old(closed) ==> (active <==> old(active) || HasSpeech(samples))
      ensures !old(closed) ==>
        silenceTimer == if HasSpeech(samples) then None else if active && old(silenceTimer).None? then Some(timer)
                        else old(silenceTimer)
      ensures effect.SpeechStart? || effect.StartAndStop? <==> HasSpeech(samples) && !old(closed) && !old(active)
    {
      effect := Nothing;
      if closed {
        return;
      }
      var sum := 0;
      for i := 0 to |samples|
        invariant sum == SumOfSquares(samples[..i])
      {
        assert samples[..i + 1][..i] == samples[..i];
        sum := sum + Squared(samples[i]);
      }
      assert samples[..|samples|] == samples;
      if |samples| == 0 || sum < THRESHOLD * THRESHOLD * |samples| {
        if active {
          if silenceTimer.Some? {
            return;
          }
          silenceTimer := Some(timer);
          effect := StartTimer;
        }
        return;
      }
      if !active {
        active := true;
        effect := SpeechStart;
      }
      if silenceTimer.Some? {
        effect := if effect == SpeechStart then StartAndStop(silenceTimer.value) else StopTimer(silenceTimer.value);
        silenceTimer := None;
      }
    }

    method HandleSilenceTimeout() returns (effect: Effect)
      modifies this
      ensures (Abs(), effect) == TimedOut(old(Abs()))
      ensures effect == (if old(active) && !old(closed) then UtteranceEnd else Nothing)
      ensures active == (old(active) && old(closed)) && closed == old(closed) && silenceTimer == old(silenceTimer)
    {
      if closed || !active {
        return Nothing;
      }
      active := false;
      return UtteranceEnd;
    }

    method Close() returns (effect: Effect)
      modifies this
      ensures (Abs(), effect) == Shut(old(Abs()))
      ensures closed && active == old(active) && silenceTimer.None?
      ensures effect == match old(silenceTimer) case Some(t) => StopTimer(t) case None => Nothing
    {
      closed := true;
      effect := Nothing;
      if silenceTimer.Some? {
        effect := StopTimer(silenceTimer.value);
        silenceTimer := None;
      }
    }
  }

  // All interleavings.

  /** `waiting` are the timers that may still fire; `fired` those whose callback has not yet got the
      mutex. Stop takes a timer out of `waiting` and does nothing to one that has fired. `starts` and
      `ends` count utterances; `lastSilent` tells that the last frame, if any, was silent; the timers
      below `heard` have seen a frame of speech since they were started. */
  datatype Sys = Sys(
    fields: Fields, waiting: set<nat>, fired: set<nat>, timers: nat,
    starts: nat, ends: nat, lastSilent: bool, heard: nat)

  ghost predicate Init(s: Sys) {
    s == Sys(IDLE, {}, {}, 0, 0, 0, false, 0)
  }

  function After(s: Sys, result: (Fields, Effect)): Sys {
    var s' := s.(fields := result.0);
    match result.1
    case Nothing => s'
    case SpeechStart => s'.(starts := s.starts + 1)
    case StartTimer => s'.(waiting := s.waiting + {s.timers}, timers := s.timers + 1)
    case StopTimer(t) => s'.(waiting := s.waiting - {t})
    case StartAndStop(t) => s'.(waiting := s.waiting - {t}, starts := s.starts + 1)
    case UtteranceEnd => s'.(ends := s.ends + 1)
  }

  ghost predicate FrameStep(s: Sys, speech: bool, s': Sys) {
    s' == After(s, Observed(s.fields, speech, s.timers))
          .(lastSilent := !speech, heard := if speech then s.timers else s.heard)
  }

  ghost predicate FireStep(s: Sys, t: nat, s': Sys) {
    t in s.waiting && s' == s.(waiting := s.waiting - {t}, fired := s.fired + {t})
  }

  ghost predicate CallbackStep(s: Sys, t: nat, s': Sys) {
    t in s.fired && s' == After(s, TimedOut(s.fields)).(fired := s.fired - {t})
  }

  ghost predicate CloseStep(s: Sys, s': Sys) {
    s' == After(s, Shut(s.fields))
  }

  ghost predicate Next(s: Sys, s': Sys) {
    || FrameStep(s, true, s') || FrameStep(s, false, s') || CloseStep(s, s')
    || exists t: nat :: FireStep(s, t, s') || CallbackStep(s, t, s')
  }

  ghost predicate IsRun(run: seq<Sys>) {
    Runs.IsRun(run, Init, Next)
  }

  /** While somebody speaks, the timer the endpointer holds can still end the utterance, and it is the
      only one that has seen nothing but silence. */
  ghost predicate Inv(s: Sys) {
    && s.starts == s.ends + (if s.fields.active then 1 else 0)
    && (forall t | t in s.waiting :: t !in s.fired)
    && (forall t: nat | Outstanding(s, t) :: t < s.timers)
    && (s.fields.silenceTimer.Some? ==> !s.fields.closed && s.fields.silenceTimer.value < s.timers)
    && (s.fields.active && s.fields.silenceTimer.Some? ==> Outstanding(s, s.fields.silenceTimer.value))
    && (!s.fields.closed && s.fields.active ==> (s.lastSilent <==> s.fields.silenceTimer.Some?))
    && s.heard <= s.timers
    && (!s.fields.closed ==> forall t: nat | Outstanding(s, t) :: s.heard <= t <==> s.fields.silenceTimer == Some(t))
  }

  predicate Outstanding(s: Sys, t: nat) {
    t in s.waiting || t in s.fired
  }

  lemma FrameKeepsInv(s: Sys, speech: bool, s': Sys)
    requires Inv(s) && FrameStep(s, speech, s')
    ensures Inv(s')
  {
    assert forall t: nat | Outstanding(s', t) :: Outstanding(s, t) || (t == s.timers && !speech);
  }

  lemma TimerKeepsInv(s: Sys, t: nat, s': Sys)
    requires Inv(s) && (FireStep(s, t, s') || CallbackStep(s, t, s'))
    ensures Inv(s')
  {
    assert Outstanding(s, t);
    assert forall u: nat | Outstanding(s', u) :: Outstanding(s, u);
  }

  lemma StepKeepsInv(s: Sys, s': Sys)
    requires Inv(s) && Next(s, s')
    ensures Inv(s')
  {
    if FrameStep(s, true, s') {
      FrameKeepsInv(s, true, s');
    } else if FrameStep(s, false, s') {
      FrameKeepsInv(s, false, s');
    } else if t: nat :| FireStep(s, t, s') || CallbackStep(s, t, s') {
      TimerKeepsInv(s, t, s');
    } else {
      assert forall u: nat | Outstanding(s', u) :: Outstanding(s, u);
    }
  }

  lemma RunKeepsInv(run: seq<Sys>, i: nat)
    requires IsRun(run) && i < |run|
    ensures Inv(run[i])
  {
    forall s, s' | Inv(s) && Next(s, s') ensures Inv(s') {
      StepKeepsInv(s, s');
    }
    Runs.Invariant(run, i, Init, Next, Inv);
  }

  /** Starts and ends of utterances alternate, and the endpointer is active exactly in between. */
  lemma StartsAndEndsAlternate(run: seq<Sys>, i: nat)
    requires IsRun(run) && i < |run|
    ensures run[i].starts - run[i].ends == if run[i].fields.active then 1 else 0
  {
    RunKeepsInv(run, i);
  }

  /** No end is lost: while the endpointer is open and active and the last frame was silent, some
      timer is outstanding, and its callback, should it be the next to run, ends the utterance. */
  lemma NoLostEnd(run: seq<Sys>, i: nat) returns (t: nat, fired: Sys, ended: Sys)
    requires IsRun(run) && i < |run|
    requires !run[i].fields.closed && run[i].fields.active && run[i].lastSilent
    ensures Outstanding(run[i], t)
    ensures fired == run[i] || FireStep(run[i], t, fired)
    ensures CallbackStep(fired, t, ended) && ended.ends == run[i].ends + 1
  {
    RunKeepsInv(run, i);
    var s := run[i];
    t := s.fields.silenceTimer.value;
    fired := if t in s.waiting then s.(waiting := s.waiting - {t}, fired := s.fired + {t}) else s;
    ended := After(fired, TimedOut(fired.fields)).(fired := fired.fired - {t});
  }

  // docs/vad-endpointing.md lets an utterance end with silence. A timer that has fired cannot be
  // stopped, so its callback ends the utterance even if speech was resumed meanwhile.

  /** A callback ends the utterance exactly if the endpointer is open and active. */
  lemma CallbackEndsUtterance(s: Sys, t: nat, s': Sys)
    requires CallbackStep(s, t, s')
    ensures s'.ends == s.ends + 1 <==> !s.fields.closed && s.fields.active
    ensures s'.ends == s.ends <==> s.fields.closed || !s.fields.active
  {
  }

  /** A callback that ends an utterance ends one that has been silent since its timer was started exactly
      if that is the timer the endpointer holds. Otherwise it cuts short the silence of a later timer, or
      falls into speech if none is held. */
  lemma EndIsSilentExactly(run: seq<Sys>, i: nat, t: nat)
    requires IsRun(run) && 0 < i < |run| && CallbackStep(run[i - 1], t, run[i])
    requires run[i].ends == run[i - 1].ends + 1
    ensures run[i - 1].heard <= t <==> run[i - 1].fields.silenceTimer == Some(t)
    ensures run[i - 1].lastSilent <==> run[i - 1].fields.silenceTimer.Some?
  {
    RunKeepsInv(run, i - 1);
    assert Outstanding(run[i - 1], t);
  }

  const SPEAKING := Fields(true, false, None)

  /** A run in which speech is resumed after the silence timer has fired, and its callback still waits. */
  lemma ReachResumed() returns (run: seq<Sys>)
    ensures IsRun(run) && Runs.Last(run) == Sys(SPEAKING, {}, {0}, 1, 1, 0, false, 1)
  {
    var s0 := Sys(IDLE, {}, {}, 0, 0, 0, false, 0);
    var s1 := Sys(SPEAKING, {}, {}, 0, 1, 0, false, 0);
    var s2 := Sys(Fields(true, false, Some(0)), {0}, {}, 1, 1, 0, true, 0);
    var s3 := Sys(Fields(true, false, Some(0)), {}, {0}, 1, 1, 0, true, 0);
    var s4 := Sys(SPEAKING, {}, {0}, 1, 1, 0, false, 1);
    run := [s0, s1, s2, s3, s4];
    assert FrameStep(s0, true, s1) && FrameStep(s1, false, s2);
    assert FireStep(s2, 0, s3) && FrameStep(s3, true, s4);
  }

  /** A run that ends an utterance although its last frame was speech. */
  lemma StaleCallbackEndsSpeech() returns (run: seq<Sys>)
    ensures IsRun(run) && |run| > 1
    ensures run[|run| - 2].fields.active && !run[|run| - 2].lastSilent && run[|run| - 2].ends == 0
    ensures CallbackStep(run[|run| - 2], 0, Runs.Last(run)) && Runs.Last(run).ends == 1
  {
    var before := ReachResumed();
    var s := Sys(Fields(false, false, None), {}, {}, 1, 1, 1, false, 1);
    assert CallbackStep(Runs.Last(before), 0, s);
    Runs.Extend(before, s, Init, Next);
    run := before + [s];
  }

  /** A run that ends an utterance in a silence that has just begun, while the timer of that silence is
      still waiting. */
  lemma StaleCallbackCutsSilence() returns (run: seq<Sys>)
    ensures IsRun(run) && |run| > 1
    ensures run[|run| - 2].fields.active && run[|run| - 2].lastSilent && run[|run| - 2].ends == 0
    ensures CallbackStep(run[|run| - 2], 0, Runs.Last(run)) && Runs.Last(run).ends == 1
    ensures Runs.Last(run).waiting == {1} && Runs.Last(run).fields.silenceTimer == Some(1)
  {
    var before := ReachResumed();
    var s := Sys(Fields(true, false, Some(1)), {1}, {0}, 2, 1, 0, true, 1);
    assert FrameStep(Runs.Last(before), false, s);
    Runs.Extend(before, s, Init, Next);
    var s' := Sys(Fields(false, false, Some(1)), {1}, {}, 2, 1, 1, true, 1);
    assert CallbackStep(s, 0, s');
    Runs.Extend(before + [s], s', Init, Next);
    run := before + [s] + [s'];
  }
}
