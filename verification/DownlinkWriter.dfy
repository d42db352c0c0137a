/** The downlink audio writer (internal/app/bot/downlink_audio.go) as the goroutines that share it:
    producers in WritePCM16K, the one writer goroutine, and callers of Flush, WaitIdle and Close.
    A frame is known by the number of the markQueued call that reserved it. */
module DownlinkWriter {
  import opened Counting
  import Runs

  const QUEUE_CAPACITY := 512

  // The counter behind the mutex.

  /** `idle` names the current idle channel; `closed` the idle channels closed so far. */
  datatype Account = Account(pending: int, idle: nat, closed: set<nat>)

  const NEW_ACCOUNT := Account(0, 0, {0})

  function Queued(a: Account, count: int): Account {
    if count <= 0 then a
    else Account(a.pending + count, if a.pending == 0 then a.idle + 1 else a.idle, a.closed)
  }

  function Done(a: Account, count: int): Account {
    if count <= 0 || a.pending == 0 then a
    else if a.pending - count <= 0 then Account(0, a.idle, a.closed + {a.idle})
    else a.(pending := a.pending - count)
  }

  class Counter {
    var pending: int
    var idle: nat
    var closed: set<nat>

    function Abs(): Account
      reads this
    {
      Account(pending, idle, closed)
    }

    constructor ()
      ensures Abs() == NEW_ACCOUNT
    {
      pending, idle, closed := 0, 0, {0};
    }

    method MarkQueued(count: int)
      modifies this
      ensures Abs() == Queued(old(Abs()), count)
    {
      if count <= 0 {
        return;
      }
      if pending == 0 {
        idle := idle + 1;
      }
      pending := pending + count;
    }

    method MarkDone(count: int)
      modifies this
      ensures Abs() == Done(old(Abs()), count)
    {
      if count <= 0 || pending == 0 {
        return;
      }
      pending := pending - count;
      if pending <= 0 {
        pending := 0;
        closed := closed + {idle};
      }
    }
  }

  // The goroutines.

  datatype Writer =
    | Selecting
    | Writing(frame: nat)                 // before WriteSample
    | Failed                              // it failed; before markDone(1)
    | Pacing                              // it succeeded; waiting for the timer, a flush or the close
    | Timed                               // the timer fired; before markDone(1)
    | FlushPaced(ack: nat)                // a flush came while pacing; before markDone(1)
    | Draining(ack: nat, drained: nat)    // inside flushQueue
    | Drained(ack: nat, drained: nat)     // the queue was empty; before markDone(drained)
    | Acking(ack: nat)                    // before close(ack)
    | Leaving(held: nat)                  // returned from run with `held` frames unaccounted for
    | Stopped(held: nat)                  // doneCh is closed

  datatype Producer =
    | Marking(left: nat)                  // before markQueued, or at the end if none is left
    | Offering(frame: nat, left: nat)     // in enqueue
    | Rejected                            // enqueue failed; before markDone(1)
    | Finished

  /** `mark` is the number of frames enqueued when Flush was called. An ack channel is named by the
      index of its flusher. */
  datatype Flusher =
    | Calling(mark: nat)
    | Waiting(mark: nat)
    | Acked(mark: nat)
    | Returned(mark: nat)

  datatype Waiter =
    | Entering
    | Awaiting(idle: nat)
    | Left(throughIdle: bool)

  datatype Fate = Written | WriteFailed | Flushed

  /** The shared state, the goroutines, and the history: which call reserved each frame, the frames refused,
      the order of enqueueing, what became of the frames taken off the queue, and the calls of WriteSample. */
  datatype Sys = Sys(
    queue: seq<nat>,
    closed: bool,
    account: Account,
    writer: Writer,
    producers: seq<Producer>,
    flushers: seq<Flusher>,
    waiters: seq<Waiter>,
    owners: seq<nat>,
    refused: nat,
    enqueued: seq<nat>,
    fates: seq<Fate>,
    writes: seq<nat>)

  const START := Sys([], false, NEW_ACCOUNT, Selecting, [], [], [], [], 0, [], [], [])

  ghost predicate Init(s: Sys) {
    s == START
  }

  ghost predicate WriterStep(s: Sys, s': Sys) {
    match s.writer
    case Selecting =>
      || (s.closed && s' == s.(writer := Leaving(0)))
      || (s.queue != [] && s' == s.(writer := Writing(s.queue[0]), queue := s.queue[1..]))
    case Writing(f) =>
      || s' == s.(writer := Failed, fates := s.fates + [WriteFailed])
      || s' == s.(writer := Pacing, fates := s.fates + [Written], writes := s.writes + [f])
    case Failed => s' == s.(writer := Selecting, account := Done(s.account, 1))
    case Pacing =>
      || (s.closed && s' == s.(writer := Leaving(1)))
      || s' == s.(writer := Timed)
    case Timed => s' == s.(writer := Selecting, account := Done(s.account, 1))
    case FlushPaced(a) => s' == s.(writer := Draining(a, 0), account := Done(s.account, 1))
    case Draining(a, d) =>
      if s.queue != [] then
        s' == s.(writer := Draining(a, d + 1), queue := s.queue[1..], fates := s.fates + [Flushed])
      else
        s' == s.(writer := if d > 0 then Drained(a, d) else Acking(a))
    case Drained(a, d) => s' == s.(writer := Acking(a), account := Done(s.account, d))
    case Acking(a) =>
      a < |s.flushers| && s' == s.(writer := Selecting, flushers := s.flushers[a := Acked(s.flushers[a].mark)])
    case Leaving(h) => s' == s.(writer := Stopped(h))
    case Stopped(_) => false
  }

  ghost predicate ProducerStep(s: Sys, i: nat, s': Sys)
    requires i < |s.producers|
  {
    match s.producers[i]
    case Marking(n) =>
      if n == 0 then s' == s.(producers := s.producers[i := Finished])
      else
        s' == s.(producers := s.producers[i := Offering(|s.owners|, n - 1)],
                 account := Queued(s.account, 1), owners := s.owners + [i])
    case Offering(f, n) =>
      || (s.closed && s' == s.(producers := s.producers[i := Rejected]))
      || (|s.queue| < QUEUE_CAPACITY
          && s' == s.(producers := s.producers[i := Marking(n)], queue := s.queue + [f], enqueued := s.enqueued + [f]))
    case Rejected =>
      s' == s.(producers := s.producers[i := Finished], account := Done(s.account, 1), refused := s.refused + 1)
    case Finished => false
  }

  ghost predicate FlusherStep(s: Sys, i: nat, s': Sys)
    requires i < |s.flushers|
  {
    match s.flushers[i]
    case Calling(m) =>
      || (s.writer.Stopped? && s' == s.(flushers := s.flushers[i := Returned(m)]))
      || (s.writer == Selecting && s' == s.(flushers := s.flushers[i := Waiting(m)], writer := Draining(i, 0)))
      || (s.writer == Pacing && s' == s.(flushers := s.flushers[i := Waiting(m)], writer := FlushPaced(i)))
    case Waiting(m) => s.writer.Stopped? && s' == s.(flushers := s.flushers[i := Returned(m)])
    case Acked(m) => s' == s.(flushers := s.flushers[i := Returned(m)])
    case Returned(_) => false
  }

  ghost predicate WaiterStep(s: Sys, i: nat, s': Sys)
    requires i < |s.waiters|
  {
    match s.waiters[i]
    case Entering => s' == s.(waiters := s.waiters[i := Awaiting(s.account.idle)])
    case Awaiting(g) =>
      || (g in s.account.closed && s' == s.(waiters := s.waiters[i := Left(true)]))
      || (s.writer.Stopped? && s' == s.(waiters := s.waiters[i := Left(false)]))
    case Left(_) => false
  }

  /** A new call of WritePCM16K with n frames, of Flush, of WaitIdle, or of Close. */
  ghost predicate CallStep(s: Sys, s': Sys) {
    || (exists n: nat :: s' == s.(producers := s.producers + [Marking(n)]))
    || s' == s.(flushers := s.flushers + [Calling(|s.enqueued|)])
    || s' == s.(waiters := s.waiters + [Entering])
    || (!s.closed && s' == s.(closed := true))
  }

  ghost predicate Next(s: Sys, s': Sys) {
    || WriterStep(s, s')
    || (exists i: nat | i < |s.producers| :: ProducerStep(s, i, s'))
    || (exists i: nat | i < |s.flushers| :: FlusherStep(s, i, s'))
    || (exists i: nat | i < |s.waiters| :: WaiterStep(s, i, s'))
    || CallStep(s, s')
  }

  ghost predicate IsRun(run: seq<Sys>) {
    Runs.IsRun(run, Init, Next)
  }

  // Accounting.

  predicate Reserves(p: Producer) {
    p.Offering? || p.Rejected?
  }

  function Reserving(p: Producer): nat {
    if Reserves(p) then 1 else 0
  }

  function Reserved(ps: seq<Producer>): nat {
    Total(ps, Reserving)
  }

  /** Frames the writer has taken off the queue and not yet reported to markDone. */
  function Held(w: Writer): nat {
    match w
    case Selecting => 0
    case Acking(_) => 0
    case Draining(_, d) => d
    case Drained(_, d) => d
    case Leaving(h) => h
    case Stopped(h) => h
    case _ => 1
  }

  /** What the writer's next step passes to markDone. */
  function Reports(w: Writer): nat {
    match w
    case Failed => 1
    case Timed => 1
    case FlushPaced(_) => 1
    case Drained(_, d) => d
    case _ => 0
  }

  ghost predicate IdleTracksPending(a: Account) {
    && a.pending >= 0
    && (a.idle in a.closed <==> a.pending == 0)
    && (forall g | 0 <= g < a.idle :: g in a.closed)
    && (forall g | g in a.closed :: g <= a.idle)
  }

  ghost predicate Accounted(s: Sys) {
    && s.account.pending == Reserved(s.producers) + |s.queue| + Held(s.writer)
    && |s.owners| == |s.enqueued| + Reserved(s.producers) + s.refused
    && (s.writer.Drained? ==> s.writer.drained > 0)
    && |s.queue| <= QUEUE_CAPACITY
    && IdleTracksPending(s.account)
  }

  lemma DoneKeepsIdle(a: Account, n: nat)
    requires IdleTracksPending(a) && n <= a.pending
    ensures IdleTracksPending(Done(a, n)) && Done(a, n).pending == a.pending - n
  {
  }

  lemma WriterKeepsAccounted(s: Sys, s': Sys)
    requires Accounted(s) && WriterStep(s, s')
    ensures Accounted(s')
  {
    DoneKeepsIdle(s.account, Reports(s.writer));
  }

  lemma ProducerKeepsAccounted(s: Sys, i: nat, s': Sys)
    requires i < |s.producers| && Accounted(s) && ProducerStep(s, i, s')
    ensures Accounted(s')
  {
    TotalMove(s.producers, i, s'.producers[i], Reserving);
    if s.producers[i].Rejected? {
      TotalAtLeast(s.producers, i, Reserving);
      DoneKeepsIdle(s.account, 1);
    }
  }

  lemma CallKeepsAccounted(s: Sys, s': Sys)
    requires Accounted(s) && CallStep(s, s')
    ensures Accounted(s')
  {
    if n: nat :| s' == s.(producers := s.producers + [Marking(n)]) {
      TotalMore(s.producers, Marking(n), Reserving);
    }
  }

  lemma FlusherKeepsAccounted(s: Sys, i: nat, s': Sys)
    requires i < |s.flushers| && Accounted(s) && FlusherStep(s, i, s')
    ensures Accounted(s')
  {
  }

  lemma StepKeepsAccounted(s: Sys, s': Sys)
    requires Accounted(s) && Next(s, s')
    ensures Accounted(s')
  {
    if WriterStep(s, s') {
      WriterKeepsAccounted(s, s');
    } else if CallStep(s, s') {
      CallKeepsAccounted(s, s');
    } else if i: nat :| i < |s.producers| && ProducerStep(s, i, s') {
      ProducerKeepsAccounted(s, i, s');
    } else if i: nat :| i < |s.flushers| && FlusherStep(s, i, s') {
      FlusherKeepsAccounted(s, i, s');
    }
  }

  lemma InitAccounted(s: Sys)
    requires Init(s)
    ensures Accounted(s)
  {
  }

  lemma RunAccounted(run: seq<Sys>, i: nat)
    requires IsRun(run) && i < |run|
    ensures Accounted(run[i])
  {
    forall s | Init(s) ensures Accounted(s) {
      InitAccounted(s);
    }
    forall s, s' | Accounted(s) && Next(s, s') ensures Accounted(s') {
      StepKeepsAccounted(s, s');
    }
    Runs.Invariant(run, i, Init, Next, Accounted);
  }

  /** In every run, pending counts the frames reserved, queued, in flight and drained but not yet
      reported; markDone is never called with more, so its clamps never act; and the idle channel
      is closed exactly when nothing is pending. */
  lemma PendingIsExact(run: seq<Sys>, i: nat)
    requires IsRun(run) && i < |run|
    ensures var s := run[i];
      && s.account.pending == Reserved(s.producers) + |s.queue| + Held(s.writer)
      && Reports(s.writer) <= s.account.pending
      && (forall p | 0 <= p < |s.producers| && s.producers[p].Rejected? :: s.account.pending >= 1)
      && (s.account.idle in s.account.closed <==> s.account.pending == 0)
  {
    RunAccounted(run, i);
    var s := run[i];
    forall p | 0 <= p < |s.producers| && s.producers[p].Rejected? ensures s.account.pending >= 1 {
      TotalAtLeast(s.producers, p, Reserving);
    }
  }

  // Order.

  function InHand(w: Writer): nat {
    if w.Writing? then 1 else 0
  }

  /** Those of the first n frames whose fate is to be written, in order. */
  function WrittenOf(frames: seq<nat>, fates: seq<Fate>, n: nat): seq<nat>
    requires n <= |frames| && n <= |fates|
  {
    if n == 0 then []
    else WrittenOf(frames, fates, n - 1) + if fates[n - 1] == Written then [frames[n - 1]] else []
  }

  lemma {:induction false} WrittenOfPrefix(frames: seq<nat>, frames': seq<nat>, fates: seq<Fate>, fates': seq<Fate>,
                                           n: nat)
    requires n <= |frames| && n <= |fates| && frames <= frames' && fates <= fates'
    ensures WrittenOf(frames', fates', n) == WrittenOf(frames, fates, n)
  {
    if n > 0 {
      WrittenOfPrefix(frames, frames', fates, fates', n - 1);
    }
  }

  /** What is written later are frames taken later. */
  lemma {:induction false} WrittenLater(frames: seq<nat>, fates: seq<Fate>, n: nat, m: nat)
    requires n <= m <= |frames| && m <= |fates|
    ensures WrittenOf(frames, fates, n) <= WrittenOf(frames, fates, m)
    ensures var before := |WrittenOf(frames, fates, n)|;
      forall f | f in WrittenOf(frames, fates, m)[before..] :: f in frames[n..m]
  {
    if n < m {
      WrittenLater(frames, fates, n, m - 1);
      assert frames[n..m] == frames[n..m - 1] + [frames[m - 1]];
    }
  }

  lemma {:induction false} WrittenOfExactly(frames: seq<nat>, fates: seq<Fate>, n: nat, p: nat)
    requires n <= |frames| && n <= |fates| && p < |frames|
    requires forall i, j | 0 <= i < j < |frames| :: frames[i] != frames[j]
    ensures frames[p] in WrittenOf(frames, fates, n) <==> p < n && fates[p] == Written
  {
    if n > 0 {
      WrittenOfExactly(frames, fates, n - 1, p);
    }
  }

  /** Frames are taken off the queue in the order they were put on it; what was written are, in that
      order, the frames whose fate it was. */
  ghost predicate Ordered(s: Sys) {
    && |s.fates| + InHand(s.writer) + |s.queue| == |s.enqueued|
    && s.queue == s.enqueued[|s.enqueued| - |s.queue|..]
    && (s.writer.Writing? ==> s.writer.frame == s.enqueued[|s.fates|])
    && s.writes == WrittenOf(s.enqueued, s.fates, |s.fates|)
  }

  lemma TakenOff(s: Sys, fate: Fate)
    requires |s.fates| < |s.enqueued|
    ensures WrittenOf(s.enqueued, s.fates + [fate], |s.fates| + 1)
         == WrittenOf(s.enqueued, s.fates, |s.fates|) + if fate == Written then [s.enqueued[|s.fates|]] else []
  {
    WrittenOfPrefix(s.enqueued, s.enqueued, s.fates, s.fates + [fate], |s.fates|);
  }

  lemma TakingKeepsOrder(s: Sys)
    requires Ordered(s) && s.writer == Selecting && s.queue != []
    ensures Ordered(s.(writer := Writing(s.queue[0]), queue := s.queue[1..]))
  {
  }

  lemma WritingKeepsOrder(s: Sys, writer: Writer, fate: Fate)
    requires Ordered(s) && s.writer.Writing? && !writer.Writing? && fate != Flushed
    ensures Ordered(s.(writer := writer, fates := s.fates + [fate],
                       writes := s.writes + if fate == Written then [s.writer.frame] else []))
  {
    TakenOff(s, fate);
  }

  lemma DrainingKeepsOrder(s: Sys, writer: Writer)
    requires Ordered(s) && s.writer.Draining? && writer.Draining? && s.queue != []
    ensures Ordered(s.(writer := writer, queue := s.queue[1..], fates := s.fates + [Flushed]))
  {
    TakenOff(s, Flushed);
    assert s.writes + [] == s.writes;
  }

  /** Steps that take nothing off the queue and settle no frame keep the order. */
  lemma QuietKeepsOrder(s: Sys, s': Sys)
    requires Ordered(s) && InHand(s.writer) == InHand(s'.writer) == 0
    requires s'.queue == s.queue && s'.enqueued == s.enqueued && s'.fates == s.fates && s'.writes == s.writes
    ensures Ordered(s')
  {
  }

  lemma WriteKeepsOrder(s: Sys, s': Sys)
    requires Ordered(s) && WriterStep(s, s') && s.writer.Writing?
    ensures Ordered(s')
  {
    assert s.writes + [] == s.writes;
    WritingKeepsOrder(s, s'.writer, if s'.writer == Failed then WriteFailed else Written);
  }

  lemma WriterKeepsOrder(s: Sys, s': Sys)
    requires Ordered(s) && WriterStep(s, s')
    ensures Ordered(s')
  {
    if s.writer.Writing? {
      WriteKeepsOrder(s, s');
    } else if s'.queue == s.queue {
      QuietKeepsOrder(s, s');
    } else if s.writer.Draining? {
      DrainingKeepsOrder(s, s'.writer);
    } else {
      TakingKeepsOrder(s);
    }
  }

  lemma ProducerKeepsOrder(s: Sys, i: nat, s': Sys)
    requires i < |s.producers| && Ordered(s) && ProducerStep(s, i, s')
    ensures Ordered(s')
  {
    if s'.enqueued != s.enqueued {
      WrittenOfPrefix(s.enqueued, s'.enqueued, s.fates, s.fates, |s.fates|);
    }
  }

  lemma FlusherKeepsOrder(s: Sys, i: nat, s': Sys)
    requires i < |s.flushers| && Ordered(s) && FlusherStep(s, i, s')
    ensures Ordered(s')
  {
  }

  // Every frame is enqueued once.

  ghost predicate Fresh(s: Sys) {
    && (forall i | 0 <= i < |s.enqueued| :: s.enqueued[i] < |s.owners|)
    && (forall i, j | 0 <= i < j < |s.enqueued| :: s.enqueued[i] != s.enqueued[j])
    && (forall p | 0 <= p < |s.producers| && s.producers[p].Offering? ::
          s.producers[p].frame < |s.owners| && s.producers[p].frame !in s.enqueued)
    && (forall p, q | 0 <= p < q < |s.producers| && s.producers[p].Offering? && s.producers[q].Offering? ::
          s.producers[p].frame != s.producers[q].frame)
  }

  lemma ProducerKeepsFresh(s: Sys, i: nat, s': Sys)
    requires i < |s.producers| && Fresh(s) && ProducerStep(s, i, s')
    ensures Fresh(s')
  {
  }

  lemma CallKeepsFresh(s: Sys, s': Sys)
    requires Fresh(s) && CallStep(s, s')
    ensures Fresh(s')
  {
  }

  lemma WriterKeepsFresh(s: Sys, s': Sys)
    requires Fresh(s) && WriterStep(s, s')
    ensures Fresh(s')
  {
  }

  // Flushing.

  predicate Over(w: Writer) {
    w.Leaving? || w.Stopped?
  }

  predicate ServesFlush(w: Writer) {
    w.FlushPaced? || w.Draining? || w.Drained? || w.Acking?
  }

  ghost predicate FlusherSound(s: Sys, f: Flusher) {
    && f.mark <= |s.enqueued|
    && (f.Acked? ==> f.mark <= |s.fates|)
    && (f.Returned? ==> f.mark <= |s.fates| || Over(s.writer))
  }

  /** An acknowledged flusher has seen every frame enqueued before its call taken off the queue. */
  ghost predicate FlushSound(s: Sys) {
    && (forall i | 0 <= i < |s.flushers| :: FlusherSound(s, s.flushers[i]))
    && (ServesFlush(s.writer) ==> s.writer.ack < |s.flushers|)
    && (s.writer.Drained? || s.writer.Acking? ==> s.flushers[s.writer.ack].mark <= |s.fates|)
  }

  lemma WriterKeepsFlushSound(s: Sys, s': Sys)
    requires Ordered(s) && FlushSound(s) && WriterStep(s, s')
    ensures FlushSound(s')
  {
    forall i | 0 <= i < |s.flushers| ensures FlusherSound(s', s'.flushers[i]) {
      assert FlusherSound(s, s.flushers[i]);
    }
  }

  lemma FlusherKeepsFlushSound(s: Sys, i: nat, s': Sys)
    requires i < |s.flushers| && FlushSound(s) && FlusherStep(s, i, s')
    ensures FlushSound(s')
  {
    forall j | 0 <= j < |s.flushers| ensures FlusherSound(s', s'.flushers[j]) {
      assert FlusherSound(s, s.flushers[j]);
    }
  }

  lemma ProducerKeepsFlushSound(s: Sys, i: nat, s': Sys)
    requires i < |s.producers| && FlushSound(s) && ProducerStep(s, i, s')
    ensures FlushSound(s')
  {
    forall j | 0 <= j < |s.flushers| ensures FlusherSound(s', s'.flushers[j]) {
      assert FlusherSound(s, s.flushers[j]);
    }
  }

  lemma CallKeepsFlushSound(s: Sys, s': Sys)
    requires FlushSound(s) && CallStep(s, s')
    ensures FlushSound(s')
  {
    forall j | 0 <= j < |s.flushers| ensures FlusherSound(s', s'.flushers[j]) {
      assert FlusherSound(s, s.flushers[j]);
    }
  }

  ghost predicate Sound(s: Sys) {
    Ordered(s) && Fresh(s) && FlushSound(s)
  }

  lemma WriterKeepsSound(s: Sys, s': Sys)
    requires Sound(s) && WriterStep(s, s')
    ensures Sound(s')
  {
    WriterKeepsOrder(s, s');
    WriterKeepsFresh(s, s');
    WriterKeepsFlushSound(s, s');
  }

  lemma ProducerKeepsSound(s: Sys, i: nat, s': Sys)
    requires i < |s.producers| && Sound(s) && ProducerStep(s, i, s')
    ensures Sound(s')
  {
    ProducerKeepsOrder(s, i, s');
    ProducerKeepsFresh(s, i, s');
    ProducerKeepsFlushSound(s, i, s');
  }

  lemma FlusherKeepsSound(s: Sys, i: nat, s': Sys)
    requires i < |s.flushers| && Sound(s) && FlusherStep(s, i, s')
    ensures Sound(s')
  {
    FlusherKeepsOrder(s, i, s');
    FlusherKeepsFlushSound(s, i, s');
  }

  lemma WaiterKeepsSound(s: Sys, i: nat, s': Sys)
    requires i < |s.waiters| && Sound(s) && WaiterStep(s, i, s')
    ensures Sound(s')
  {
    assert s' == s.(waiters := s'.waiters);
    WaitersDoNotMatter(s, s'.waiters);
  }

  lemma WaitersDoNotMatter(s: Sys, waiters: seq<Waiter>)
    requires Sound(s)
    ensures Sound(s.(waiters := waiters))
  {
    var s' := s.(waiters := waiters);
    assert Ordered(s');
    forall j | 0 <= j < |s.flushers| ensures FlusherSound(s', s'.flushers[j]) {
      assert FlusherSound(s, s.flushers[j]);
    }
  }

  lemma CallKeepsSound(s: Sys, s': Sys)
    requires Sound(s) && CallStep(s, s')
    ensures Sound(s')
  {
    CallKeepsFresh(s, s');
    CallKeepsFlushSound(s, s');
  }

  lemma StepKeepsSound(s: Sys, s': Sys)
    requires Sound(s) && Next(s, s')
    ensures Sound(s')
  {
    if WriterStep(s, s') {
      WriterKeepsSound(s, s');
    } else if CallStep(s, s') {
      CallKeepsSound(s, s');
    } else if i: nat :| i < |s.producers| && ProducerStep(s, i, s') {
      ProducerKeepsSound(s, i, s');
    } else if i: nat :| i < |s.flushers| && FlusherStep(s, i, s') {
      FlusherKeepsSound(s, i, s');
    } else {
      var i: nat :| i < |s.waiters| && WaiterStep(s, i, s');
      WaiterKeepsSound(s, i, s');
    }
  }

  lemma InitOrdered(s: Sys)
    requires Init(s)
    ensures Ordered(s)
  {
    var none: seq<nat>, nothing: seq<Fate> := [], [];
    assert none[0..] == none && WrittenOf(none, nothing, 0) == none;
    assert s.enqueued == none && s.fates == nothing && s.queue == none && s.writes == none;
  }

  lemma InitFresh(s: Sys)
    requires Init(s)
    ensures Fresh(s) && FlushSound(s)
  {
  }

  lemma InitSound(s: Sys)
    requires Init(s)
    ensures Sound(s)
  {
    InitOrdered(s);
    InitFresh(s);
  }

  lemma RunSound(run: seq<Sys>, i: nat)
    requires IsRun(run) && i < |run|
    ensures Sound(run[i])
  {
    forall s | Init(s) ensures Sound(s) {
      InitSound(s);
    }
    forall s, s' | Sound(s) && Next(s, s') ensures Sound(s') {
      StepKeepsSound(s, s');
    }
    Runs.Invariant(run, i, Init, Next, Sound);
  }

  // What stays: histories only grow, and a writer that is over takes nothing off the queue.

  ghost predicate Grows(s: Sys, s': Sys) {
    && s.enqueued <= s'.enqueued && s.fates <= s'.fates && s.writes <= s'.writes && s.owners <= s'.owners
    && (Over(s.writer) ==> Over(s'.writer) && s'.writes == s.writes)
  }

  lemma WriterGrows(s: Sys, s': Sys)
    requires WriterStep(s, s')
    ensures Grows(s, s')
  {
  }

  lemma FlusherGrows(s: Sys, i: nat, s': Sys)
    requires i < |s.flushers| && FlusherStep(s, i, s')
    ensures Grows(s, s')
  {
  }

  lemma ProducerGrows(s: Sys, i: nat, s': Sys)
    requires i < |s.producers| && ProducerStep(s, i, s')
    ensures Grows(s, s')
  {
  }

  lemma StepGrows(s: Sys, s': Sys)
    requires Next(s, s')
    ensures Grows(s, s')
  {
    if WriterStep(s, s') {
      WriterGrows(s, s');
    } else if i: nat :| i < |s.producers| && ProducerStep(s, i, s') {
      ProducerGrows(s, i, s');
    } else if i: nat :| i < |s.flushers| && FlusherStep(s, i, s') {
      FlusherGrows(s, i, s');
    }
  }

  lemma {:induction false} RunGrows(run: seq<Sys>, i: nat, j: nat)
    requires IsRun(run) && i <= j < |run|
    ensures Grows(run[i], run[j])
  {
    if i < j {
      RunGrows(run, i, j - 1);
      assert Runs.StepAt(run, j, Next);
      StepGrows(run[j - 1], run[j]);
    }
  }

  /** The frames written between two states are those taken off the queue between them: one that had
      been taken off before is not among them. */
  lemma NotWrittenAgain(s: Sys, s': Sys, p: nat)
    requires Ordered(s) && Ordered(s') && Fresh(s') && Grows(s, s')
    requires p < |s.fates|
    ensures s'.enqueued[p] !in s'.writes[|s.writes|..]
  {
    var n, n' := |s.fates|, |s'.fates|;
    WrittenOfPrefix(s.enqueued, s'.enqueued, s.fates, s'.fates, n);
    WrittenLater(s'.enqueued, s'.fates, n, n');
    assert s'.enqueued[p] !in s'.enqueued[n..n'];
  }

  /** Flush is a barrier: a call of Flush that begins in or after state i and has returned by state
      j guarantees that no frame whose enqueue finished by state i is written after state j. */
  lemma FlushIsABarrier(run: seq<Sys>, i: nat, j: nat, k: nat, flusher: nat, frame: nat)
    requires IsRun(run) && i <= j <= k < |run|
    requires |run[i].flushers| <= flusher < |run[j].flushers| && run[j].flushers[flusher].Returned?
    requires frame in run[i].enqueued
    ensures run[j].writes <= run[k].writes && frame !in run[k].writes[|run[j].writes|..]
  {
    RunSound(run, j);
    RunSound(run, k);
    RunGrows(run, i, j);
    RunGrows(run, j, k);
    MarkedAtCall(run, i, j, flusher);
    assert FlusherSound(run[j], run[j].flushers[flusher]);
    var p :| 0 <= p < |run[i].enqueued| && run[i].enqueued[p] == frame;
    if !Over(run[j].writer) {
      NotWrittenAgain(run[j], run[k], p);
    }
  }

  lemma WriterKeepsMarks(s: Sys, s': Sys)
    requires WriterStep(s, s')
    ensures |s'.flushers| == |s.flushers|
    ensures forall f | 0 <= f < |s.flushers| :: s'.flushers[f].mark == s.flushers[f].mark
  {
  }

  lemma FlusherKeepsMarks(s: Sys, i: nat, s': Sys)
    requires i < |s.flushers| && FlusherStep(s, i, s')
    ensures |s'.flushers| == |s.flushers|
    ensures forall f | 0 <= f < |s.flushers| :: s'.flushers[f].mark == s.flushers[f].mark
  {
  }

  lemma MarksStay(s: Sys, s': Sys, f: nat)
    requires Next(s, s') && f < |s.flushers|
    ensures f < |s'.flushers| && s'.flushers[f].mark == s.flushers[f].mark
  {
    if WriterStep(s, s') {
      WriterKeepsMarks(s, s');
    } else if i: nat :| i < |s.flushers| && FlusherStep(s, i, s') {
      FlusherKeepsMarks(s, i, s');
    }
  }

  lemma MarkedNow(s: Sys, s': Sys, f: nat)
    requires Next(s, s') && |s.flushers| <= f < |s'.flushers|
    ensures s'.flushers[f].mark == |s.enqueued|
  {
    if WriterStep(s, s') {
      WriterKeepsMarks(s, s');
    } else if i: nat :| i < |s.flushers| && FlusherStep(s, i, s') {
      FlusherKeepsMarks(s, i, s');
    }
  }

  /** A flusher that is called from a state with n frames enqueued, or later, is marked with no less. */
  lemma MarkedStep(s: Sys, s': Sys, f: nat, n: nat)
    requires Next(s, s') && f < |s'.flushers| && n <= |s.enqueued|
    requires f < |s.flushers| ==> n <= s.flushers[f].mark
    ensures n <= s'.flushers[f].mark
  {
    if f < |s.flushers| {
      MarksStay(s, s', f);
    } else {
      MarkedNow(s, s', f);
    }
  }

  lemma {:induction false} MarkedAtCall(run: seq<Sys>, i: nat, j: nat, f: nat)
    requires IsRun(run) && i <= j < |run| && |run[i].flushers| <= f < |run[j].flushers|
    ensures run[j].flushers[f].mark >= |run[i].enqueued|
  {
    if i < j {
      if f < |run[j - 1].flushers| {
        MarkedAtCall(run, i, j - 1, f);
      }
      RunGrows(run, i, j - 1);
      assert Runs.StepAt(run, j, Next);
      MarkedStep(run[j - 1], run[j], f, |run[i].enqueued|);
    }
  }

  /** A frame is with the writer or queued exactly as long as it has no fate. */
  lemma WaitsForFate(s: Sys, p: nat)
    requires Ordered(s) && Fresh(s) && p < |s.enqueued|
    ensures p < |s.fates| <==>
      s.enqueued[p] !in s.queue && !(s.writer.Writing? && s.writer.frame == s.enqueued[p])
  {
    var n := |s.enqueued| - |s.queue|;
    if p >= n {
      assert s.queue[p - n] == s.enqueued[p];
    } else {
      assert forall q | 0 <= q < |s.queue| :: s.queue[q] == s.enqueued[n + q];
    }
  }

  lemma FateDecides(s: Sys, p: nat)
    requires Ordered(s) && Fresh(s) && p < |s.enqueued|
    ensures s.enqueued[p] in s.writes <==> p < |s.fates| && s.fates[p] == Written
  {
    WrittenOfExactly(s.enqueued, s.fates, |s.fates|, p);
  }

  /** Each frame that was enqueued has exactly one fate, or is with the writer, or is queued; the fates fall
      in the order of enqueueing, and so what is written are, in that order, the frames fated to be. */
  lemma EachFrameOneFate(run: seq<Sys>, i: nat, p: nat)
    requires IsRun(run) && i < |run| && p < |run[i].enqueued|
    ensures var s := run[i]; var frame := s.enqueued[p];
      && (forall q | 0 <= q < |s.enqueued| :: s.enqueued[q] == frame ==> q == p)
      && (p < |s.fates| <==> frame !in s.queue && !(s.writer.Writing? && s.writer.frame == frame))
      && (frame in s.writes <==> p < |s.fates| && s.fates[p] == Written)
      && |s.fates| <= |s.enqueued| && s.writes == WrittenOf(s.enqueued, s.fates, |s.fates|)
  {
    RunSound(run, i);
    WaitsForFate(run[i], p);
    FateDecides(run[i], p);
  }

  // WaitIdle.

  /** Every frame marked so far has been written, has failed to be written, was flushed or refused. */
  ghost predicate Settled(s: Sys) {
    && |s.fates| == |s.enqueued|
    && |s.owners| == |s.enqueued| + s.refused
  }

  lemma IdleIsSettled(s: Sys)
    requires Accounted(s) && Ordered(s) && s.account.pending == 0
    ensures Settled(s)
  {
  }

  /** Waiter `w`, if it may leave through its idle channel at state j or has done so, owes this to a
      moment since state i at which nothing was pending. */
  ghost predicate WaitJustified(run: seq<Sys>, i: nat, j: nat, w: nat)
    requires i <= j < |run| && w < |run[j].waiters|
  {
    MayLeave(run[j].waiters[w], run[j].account) ==> IdleBetween(run, i, j)
  }

  predicate MayLeave(w: Waiter, a: Account) {
    match w
    case Entering => false
    case Awaiting(g) => g in a.closed
    case Left(through) => through
  }

  ghost predicate IdleBetween(run: seq<Sys>, i: nat, j: nat)
    requires i <= j < |run|
  {
    exists m | i <= m <= j :: run[m].account.pending == 0
  }

  /** How one step changes the counter. */
  lemma AccountMoves(s: Sys, s': Sys)
    requires Next(s, s')
    ensures || s'.account == s.account || s'.account == Queued(s.account, 1)
            || s'.account == Done(s.account, 1) || s'.account == Done(s.account, Reports(s.writer))
  {
    if i: nat :| i < |s.flushers| && FlusherStep(s, i, s') {
      FlusherKeepsAccount(s, i, s');
    }
  }

  lemma FlusherKeepsAccount(s: Sys, i: nat, s': Sys)
    requires i < |s.flushers| && FlusherStep(s, i, s')
    ensures s'.account == s.account
  {
  }

  lemma ClosedOnlyWhenIdle(s: Sys, s': Sys, g: nat)
    requires Next(s, s') && g in s'.account.closed && g !in s.account.closed
    ensures s'.account.pending == 0
  {
    AccountMoves(s, s');
  }

  /** How one step changes a waiter. */
  lemma WaiterMoves(s: Sys, s': Sys, w: nat)
    requires Next(s, s') && w < |s.waiters|
    ensures |s'.waiters| >= |s.waiters|
    ensures s'.waiters[w] == s.waiters[w] || (s'.account == s.account && WaiterMove(s, s.waiters[w], s'.waiters[w]))
  {
    if WriterStep(s, s') {
      WriterKeepsWaiters(s, s');
    } else if i: nat :| i < |s.flushers| && FlusherStep(s, i, s') {
      FlusherKeepsWaiters(s, i, s');
    } else if i: nat :| i < |s.producers| && ProducerStep(s, i, s') {
      ProducerKeepsWaiters(s, i, s');
    }
  }

  lemma ProducerKeepsWaiters(s: Sys, i: nat, s': Sys)
    requires i < |s.producers| && ProducerStep(s, i, s')
    ensures s'.waiters == s.waiters
  {
  }

  lemma WriterKeepsWaiters(s: Sys, s': Sys)
    requires WriterStep(s, s')
    ensures s'.waiters == s.waiters
  {
  }

  lemma FlusherKeepsWaiters(s: Sys, i: nat, s': Sys)
    requires i < |s.flushers| && FlusherStep(s, i, s')
    ensures s'.waiters == s.waiters
  {
  }

  ghost predicate WaiterMove(s: Sys, x: Waiter, x': Waiter) {
    match x
    case Entering => x' == Awaiting(s.account.idle)
    case Awaiting(g) => x' == Left(false) || (x' == Left(true) && g in s.account.closed)
    case Left(_) => false
  }

  lemma {:induction false} WaitIsJustified(run: seq<Sys>, i: nat, j: nat, w: nat)
    requires IsRun(run) && i <= j < |run|
    requires w < |run[i].waiters| && run[i].waiters[w] == Entering
    ensures w < |run[j].waiters| && WaitJustified(run, i, j, w)
  {
    if i < j {
      WaitIsJustified(run, i, j - 1, w);
      WaitStep(run, i, j, w);
    }
  }

  lemma WaitStep(run: seq<Sys>, i: nat, j: nat, w: nat)
    requires IsRun(run) && i < j < |run|
    requires w < |run[j - 1].waiters| && WaitJustified(run, i, j - 1, w)
    ensures w < |run[j].waiters| && WaitJustified(run, i, j, w)
  {
    var s, s' := run[j - 1], run[j];
    assert Runs.StepAt(run, j, Next);
    RunAccounted(run, j - 1);
    MayLeaveOnceIdle(s, s', w);
    if MayLeave(s.waiters[w], s.account) {
      var m :| i <= m <= j - 1 && run[m].account.pending == 0;
      assert run[m].account.pending == 0;
    }
  }

  /** A waiter that may leave could leave before, or nothing is pending now. */
  lemma MayLeaveOnceIdle(s: Sys, s': Sys, w: nat)
    requires Accounted(s) && Next(s, s') && w < |s.waiters|
    ensures |s'.waiters| >= |s.waiters|
    ensures MayLeave(s'.waiters[w], s'.account) ==> MayLeave(s.waiters[w], s.account) || s'.account.pending == 0
  {
    WaiterMoves(s, s', w);
    if s'.waiters[w].Awaiting? && s'.waiters[w].idle in s'.account.closed && s'.waiters[w] == s.waiters[w] {
      if s'.waiters[w].idle !in s.account.closed {
        ClosedOnlyWhenIdle(s, s', s'.waiters[w].idle);
      }
    }
  }

  /** When WaitIdle returns through the idle channel, there was a moment no earlier than the call at
      which every frame marked before it had been written, failed, flushed or refused. */
  lemma WaitIdleMeansSettled(run: seq<Sys>, i: nat, j: nat, w: nat) returns (m: nat)
    requires IsRun(run) && i <= j < |run|
    requires w < |run[i].waiters| && run[i].waiters[w] == Entering
    requires w < |run[j].waiters| && run[j].waiters[w] == Left(true)
    ensures i <= m <= j && Settled(run[m]) && run[m].account.pending == 0
    ensures |run[i].owners| <= |run[m].owners|
  {
    WaitIsJustified(run, i, j, w);
    m :| i <= m <= j && run[m].account.pending == 0;
    RunAccounted(run, m);
    RunSound(run, m);
    IdleIsSettled(run[m]);
    RunGrows(run, i, m);
  }
}
