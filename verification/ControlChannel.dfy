/** The control channel of a session (bind and emit of internal/app/bot/control_runtime.go). What is emitted
    while no channel is bound waits, at most 64 of it; a channel that opens takes it over under the lock and
    sends it, after session.ready, outside, while others may already emit on the channel. */
module ControlChannel {
  import opened Buffering
  import opened Outcome

  const MAX_PENDING_EVENTS := 64

  /** `channels` are those bound, by session; a channel is known by a number. */
  datatype State = State(channels: map<string, nat>, pending: map<string, seq<string>>)

  const NOTHING_BOUND := State(map[], map[])

  function PendingOf(s: State, id: string): seq<string> {
    if id in s.pending then s.pending[id] else []
  }

  /** The locked section of a channel that opens: it is bound, and what waits is taken over. */
  function Bound(s: State, id: string, c: nat): (State, seq<string>) {
    (State(s.channels[id := c], s.pending - {id}), PendingOf(s, id))
  }

  /** A channel that closes is unbound, unless another has taken its place. */
  function Unbound(s: State, id: string, c: nat): State {
    if id in s.channels && s.channels[id] == c then s.(channels := s.channels - {id}) else s
  }

  /** The locked section of emit: the channel to send on, or the envelope waits. */
  function Emitted(s: State, id: string, e: string): (State, Option<nat>) {
    if id in s.channels then (s, Some(s.channels[id]))
    else (s.(pending := s.pending[id := LastOf(PendingOf(s, id) + [e], MAX_PENDING_EVENTS)]), None)
  }

  class ControlRuntime {
    var channels: map<string, nat>
    var pending: map<string, seq<string>>

    function Abs(): State
      reads this
    {
      State(channels, pending)
    }

    constructor ()
      ensures Abs() == NOTHING_BOUND
    {
      channels, pending := map[], map[];
    }

    method Bind(id: string, channel: nat) returns (taken: seq<string>)
      modifies this
      ensures (Abs(), taken) == Bound(old(Abs()), id, channel)
    {
      channels := channels[id := channel];
      taken := if id in pending then pending[id] else [];
      pending := pending - {id};
    }

    method Unbind(id: string, channel: nat)
      modifies this
      ensures Abs() == Unbound(old(Abs()), id, channel)
    {
      if id in channels && channels[id] == channel {
        channels := channels - {id};
      }
    }

    method Emit(id: string, envelope: string) returns (channel: Option<nat>)
      modifies this
      ensures (Abs(), channel) == Emitted(old(Abs()), id, envelope)
    {
      if id in channels {
        return Some(channels[id]);
      }
      var events := (if id in pending then pending[id] else []) + [envelope];
      if |events| > MAX_PENDING_EVENTS {
        events := events[|events| - MAX_PENDING_EVENTS..];
      }
      pending := pending[id := events];
      return None;
    }
  }

  // Every history.

  /** The locked sections, and the sends outside the lock: of an emitted envelope, of the answer to a message
      that came on the channel itself, and of the goroutine that opened the channel. */
  datatype Op =
    | Open(id: string, channel: nat)
    | Close(id: string, channel: nat)
    | Emit(id: string, envelope: string)
    | SendEmitted(channel: nat, envelope: string)
    | SendAnswer(channel: nat, envelope: string)
    | SendOwn(channel: nat, envelope: string)

  function Apply(s: State, op: Op): State {
    match op
    case Open(id, c) => Bound(s, id, c).0
    case Close(id, c) => Unbound(s, id, c)
    case Emit(id, e) => Emitted(s, id, e).0
    case _ => s
  }

  function Run(h: seq<Op>): State {
    if h == [] then NOTHING_BOUND else Apply(Run(h[..|h| - 1]), h[|h| - 1])
  }

  // What a history means, told without maps.

  /** The channel that opened last for the session, if it has not closed since. */
  function ChannelOf(h: seq<Op>, id: string): Option<nat> {
    if h == [] then None
    else
      var before, op := ChannelOf(h[..|h| - 1], id), h[|h| - 1];
      if op.Open? && op.id == id then Some(op.channel)
      else if op.Close? && op.id == id && before == Some(op.channel) then None
      else before
  }

  /** Everything emitted for the session without a channel since the last one opened. */
  function Waiting(h: seq<Op>, id: string): seq<string> {
    if h == [] then []
    else
      var before, op := h[..|h| - 1], h[|h| - 1];
      if op.Open? && op.id == id then []
      else if op.Emit? && op.id == id && ChannelOf(before, id) == None then Waiting(before, id) + [op.envelope]
      else Waiting(before, id)
  }

  predicate Holds(s: State, id: string, channel: Option<nat>, waiting: seq<string>) {
    && (id in s.channels <==> channel.Some?)
    && (id in s.channels ==> channel == Some(s.channels[id]))
    && PendingOf(s, id) == LastOf(waiting, MAX_PENDING_EVENTS)
  }

  lemma StepHolds(s: State, op: Op, id: string, h: seq<Op>)
    requires Holds(s, id, ChannelOf(h, id), Waiting(h, id))
    ensures Holds(Apply(s, op), id, ChannelOf(h + [op], id), Waiting(h + [op], id))
  {
    assert (h + [op])[..|h|] == h;
    if op.Emit? {
      LastOfSnoc(Waiting(h, id), op.envelope, MAX_PENDING_EVENTS);
    }
  }

  /** The runtime holds exactly what the history says: which channel is bound, and the last of what waits. */
  lemma {:induction false} RuntimeAgreesWithHistory(h: seq<Op>, id: string)
    ensures Holds(Run(h), id, ChannelOf(h, id), Waiting(h, id))
  {
    if h != [] {
      var before, op := h[..|h| - 1], h[|h| - 1];
      RuntimeAgreesWithHistory(before, id);
      StepHolds(Run(before), op, id, before);
      assert h == before + [op];
    }
  }

  /** A channel that opens takes over the last sixty-four, in order, of all that was emitted for the session
      without a channel since the last one opened; and an envelope goes to the channel that is bound. */
  lemma OpenTakesWhatWaits(h: seq<Op>, id: string, c: nat, e: string)
    ensures Bound(Run(h), id, c).1 == LastOf(Waiting(h, id), MAX_PENDING_EVENTS)
    ensures Emitted(Run(h), id, e).1 == ChannelOf(h, id)
  {
    RuntimeAgreesWithHistory(h, id);
  }

  /** These are as many of the envelopes that wait as there are, but at most sixty-four, and the newest, in
      order. */
  lemma OpenTakesNewest(h: seq<Op>, id: string, c: nat, taken: seq<string>)
    requires Bound(Run(h), id, c).1 == taken
    ensures IsTail(taken, Waiting(h, id), 64)
  {
    OpenTakesWhatWaits(h, id, c, "");
    LastOfIsTail(Waiting(h, id), MAX_PENDING_EVENTS);
  }

  /** The envelope emitted last without a channel is kept, however many wait, and taken over last. */
  lemma NewestWaits(h: seq<Op>, id: string, c: nat, e: string)
    requires ChannelOf(h, id) == None
    ensures var taken := Bound(Run(h + [Emit(id, e)]), id, c).1; taken != [] && taken[|taken| - 1] == e
  {
    HistoryStep(h, Emit(id, e), id, c, e);
    OpenTakesWhatWaits(h + [Emit(id, e)], id, c, e);
    LastOfIsTail(Waiting(h, id) + [e], MAX_PENDING_EVENTS);
    TailEndsWithNewest(LastOf(Waiting(h, id) + [e], MAX_PENDING_EVENTS), Waiting(h, id), e, MAX_PENDING_EVENTS);
  }

  // The order on a channel.

  /** What an operation sends on channel c. */
  function SentBy(op: Op, c: nat): (sent: seq<Sending>)
    ensures |sent| <= 1
  {
    match op
    case SendEmitted(d, e) => if d == c then [Sending(true, e)] else []
    case SendAnswer(d, e) => if d == c then [Sending(true, e)] else []
    case SendOwn(d, e) => if d == c then [Sending(false, e)] else []
    case _ => []
  }

  function SentList(h: seq<Op>, c: nat): seq<seq<Sending>> {
    seq(|h|, i requires 0 <= i < |h| => SentBy(h[i], c))
  }

  /** Everything the first n operations sent on channel c, in order. */
  function SentOn(h: seq<Op>, n: nat, c: nat): seq<Sending>
    requires n <= |h|
  {
    Joined(SentList(h, c), n)
  }

  /** In operation j an envelope for channel c was emitted. */
  predicate Handed(h: seq<Op>, j: nat, c: nat, e: string)
    requires j < |h|
  {
    h[j].Emit? && h[j].envelope == e && ChannelOf(h[..j], h[j].id) == Some(c)
  }

  /** Nothing is sent as emitted on a channel that was not handed to it before. */
  ghost predicate Faithful(h: seq<Op>) {
    forall i | 0 <= i < |h| && h[i].SendEmitted? ::
      exists j: nat :: j < i && Handed(h, j, h[i].channel, h[i].envelope)
  }

  /** Channel c is opened by operation a only. */
  ghost predicate OpensAt(h: seq<Op>, a: nat, id: string, c: nat) {
    && a < |h| && h[a] == Open(id, c)
    && forall i | 0 <= i < |h| && h[i].Open? && h[i].channel == c :: i == a
  }

  lemma {:induction false} BoundWasOpened(h: seq<Op>, n: nat, id: string) returns (a: nat)
    requires n <= |h| && ChannelOf(h[..n], id).Some?
    ensures a < n && h[a] == Open(id, ChannelOf(h[..n], id).value)
  {
    assert h[..n][..n - 1] == h[..n - 1];
    a := n - 1;
    if !(h[a].Open? && h[a].id == id) {
      a := BoundWasOpened(h, n - 1, id);
    }
  }

  /** What is sent as emitted on a channel comes after it was opened. */
  lemma EmittedAfterOpen(h: seq<Op>, a: nat, id: string, c: nat, i: nat)
    requires Faithful(h) && OpensAt(h, a, id, c) && i < |h| && h[i].SendEmitted? && h[i].channel == c
    ensures a < i
  {
    var j: nat :| j < i && Handed(h, j, h[i].channel, h[i].envelope);
    var k := BoundWasOpened(h, j, h[j].id);
    assert h[k].Open? && h[k].channel == c;
  }

  /** Somebody else sends on channel c. */
  predicate Overtakes(op: Op, c: nat) {
    (op.SendEmitted? || op.SendAnswer?) && op.channel == c
  }

  lemma OvertakesExactly(op: Op, c: nat)
    ensures HasRelayed(SentBy(op, c)) <==> Overtakes(op, c)
  {
    if Overtakes(op, c) {
      assert SentBy(op, c)[0].relayed;
    }
  }

  /** Whatever happens: once the goroutine of a channel that opened has sent session.ready and all it took
      over, the last of it by operation `last`, these came first on the channel, in order, if and only if
      nobody else sent on it before; an emitted envelope can have been sent there only since it opened. */
  lemma PendingFirstExactly(h: seq<Op>, a: nat, last: nat, id: string, c: nat, ready: string)
    requires Faithful(h) && OpensAt(h, a, id, c) && a < last < |h|
    requires var script := [ready] + Bound(Run(h[..a]), id, c).1;
      Sent(SentOn(h, last + 1, c)) == script && |Sent(SentOn(h, last, c))| + 1 == |script|
    ensures var script := [ready] + LastOf(Waiting(h[..a], id), MAX_PENDING_EVENTS);
      && |SentOn(h, |h|, c)| >= |script|
      && (SentOn(h, |h|, c)[..|script|] == FromServer(script) <==> forall i | 0 <= i < last :: !Overtakes(h[i], c))
    ensures forall i | 0 <= i <= a :: Overtakes(h[i], c) ==> h[i].SendAnswer?
  {
    var script := [ready] + Bound(Run(h[..a]), id, c).1;
    OpenTakesWhatWaits(h[..a], id, c, ready);
    JoinedBeginsWithSent(SentList(h, c), last, script);
    forall i | 0 <= i < last ensures HasRelayed(SentList(h, c)[i]) <==> Overtakes(h[i], c) {
      OvertakesExactly(h[i], c);
    }
    forall i | 0 <= i < |h| && h[i].SendEmitted? && h[i].channel == c ensures a < i {
      EmittedAfterOpen(h, a, id, c, i);
    }
  }

  lemma HistoryStep(h: seq<Op>, op: Op, id: string, c: nat, e: string)
    ensures op == Open(id, c) ==> ChannelOf(h + [op], id) == Some(c)
    ensures op == Emit(id, e) && ChannelOf(h, id) == None ==> Waiting(h + [op], id) == Waiting(h, id) + [e]
  {
    assert (h + [op])[..|h|] == h;
  }

  /** An envelope waits, a channel opens, another is emitted, and the waiting one comes last. */
  function Overtaking(id: string, c: nat, ready: string, early: string, late: string): seq<Op> {
    [Emit(id, early), Open(id, c), Emit(id, late), SendEmitted(c, late), SendOwn(c, ready), SendOwn(c, early)]
  }

  lemma OvertakingWaits(id: string, c: nat, early: string)
    ensures Waiting([Emit(id, early)], id) == [early]
    ensures ChannelOf([Emit(id, early), Open(id, c)], id) == Some(c)
  {
    HistoryStep([], Emit(id, early), id, c, early);
    assert [] + [Emit(id, early)] == [Emit(id, early)];
    HistoryStep([Emit(id, early)], Open(id, c), id, c, early);
    assert [Emit(id, early)] + [Open(id, c)] == [Emit(id, early), Open(id, c)];
  }

  lemma OvertakingIsFaithful(id: string, c: nat, ready: string, early: string, late: string)
    ensures var h := Overtaking(id, c, ready, early, late);
      Faithful(h) && OpensAt(h, 1, id, c) && Waiting(h[..1], id) == [early]
  {
    var h := Overtaking(id, c, ready, early, late);
    assert h[..1] == [Emit(id, early)] && h[..2] == [Emit(id, early), Open(id, c)];
    OvertakingWaits(id, c, early);
    assert Handed(h, 2, c, late);
  }

  /** From the start, a faithful history in which what waited comes last. */
  lemma OvertakenOnOpen(id: string, c: nat, ready: string, early: string, late: string)
    ensures var h := Overtaking(id, c, ready, early, late);
      && Faithful(h) && OpensAt(h, 1, id, c) && Bound(Run(h[..1]), id, c).1 == [early]
      && SentOn(h, 6, c) == [Sending(true, late), Sending(false, ready), Sending(false, early)]
  {
    var h := Overtaking(id, c, ready, early, late);
    OvertakingIsFaithful(id, c, ready, early, late);
    OpenTakesWhatWaits(h[..1], id, c, early);
    SentInTurn(SentList(h, c), Sending(true, late), Sending(false, ready), Sending(false, early));
  }

  lemma SentInTurn(list: seq<seq<Sending>>, x: Sending, y: Sending, z: Sending)
    requires list == [[], [], [], [x], [y], [z]]
    ensures Joined(list, 6) == [x, y, z]
  {
    assert Joined(list, 1) == [];
    assert Joined(list, 2) == [];
    assert Joined(list, 3) == [];
    assert Joined(list, 4) == [x];
    assert Joined(list, 5) == [x, y];
  }
}
