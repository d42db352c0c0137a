/** The order in which an attached peer gets its messages (internal/app/signal/server.go). Its goroutine
    sends the notice of attachment and then what attach returned, outside the lock of the hub, while the
    hub may already relay to the same queue. */
module MailboxOrder {
  import opened Buffering
  import opened Mailbox

  // The hub.

  /** What one operation puts on queue q. */
  function PutsOf(s: State, op: Op, q: nat): (puts: seq<Sending>)
    requires Valid(s)
    ensures |puts| <= 1
  {
    match op
    case Relay(id, from, e) =>
      if id in s.sessions && OppositeRole(from) in s.sessions[id].peers
         && s.sessions[id].peers[OppositeRole(from)] == q && |s.queues[q].items| < MAX_PENDING_MESSAGES
      then [Sending(true, e)] else []
    case Send(p, e) =>
      if p == q && Open(s, q) && |s.queues[q].items| < MAX_PENDING_MESSAGES then [Sending(false, e)] else []
    case _ => []
  }

  function Envelopes(puts: seq<Sending>): seq<Envelope> {
    seq(|puts|, i requires 0 <= i < |puts| => puts[i].envelope)
  }

  /** These are all that ever reaches a queue, which is first in, first out. */
  lemma PutsReachTheQueue(s: State, op: Op, q: nat)
    requires Valid(s) && q < |s.queues|
    ensures q < |Apply(s, op).0.queues|
    ensures Apply(s, op).0.queues[q].items
         == (if op == Drain(q) && s.queues[q].items != [] then s.queues[q].items[1..] else s.queues[q].items)
            + Envelopes(PutsOf(s, op, q))
  {
    assert Envelopes([]) == [];
  }

  ghost predicate StepsTo(s: State, op: Op, s': State) {
    Valid(s) && Valid(s') && s' == Apply(s, op).0
  }

  /** The hub before and after each operation of a history. */
  ghost predicate IsTrace(h: seq<Op>, states: seq<State>) {
    && |states| == |h| + 1 && states[0] == START
    && forall i | 0 <= i < |h| :: StepsTo(states[i], h[i], states[i + 1])
  }

  lemma RunMore(h: seq<Op>, op: Op)
    ensures Run(h + [op]) == Apply(Run(h), op).0
  {
    assert (h + [op])[..|h|] == h;
  }

  /** Every history has exactly one trace. */
  lemma {:induction false} TraceIsRun(h: seq<Op>, states: seq<State>)
    ensures IsTrace(h, states) <==> |states| == |h| + 1 && forall i | 0 <= i <= |h| :: states[i] == Run(h[..i])
  {
    assert h[..0] == [];
    forall i | 0 <= i < |h| ensures StepsTo(Run(h[..i]), h[i], Run(h[..i + 1])) {
      RunStep(h, i);
    }
    if IsTrace(h, states) {
      forall i | 0 <= i <= |h| ensures states[i] == Run(h[..i]) {
        TraceStates(h, states, i);
      }
    }
  }

  lemma RunStep(h: seq<Op>, n: nat)
    requires n < |h|
    ensures Run(h[..n + 1]) == Apply(Run(h[..n]), h[n]).0
  {
    assert h[..n + 1] == h[..n] + [h[n]];
    RunMore(h[..n], h[n]);
  }

  lemma {:induction false} TraceStates(h: seq<Op>, states: seq<State>, n: nat)
    requires IsTrace(h, states) && n <= |h|
    ensures states[n] == Run(h[..n])
  {
    if n > 0 {
      TraceStates(h, states, n - 1);
      assert StepsTo(states[n - 1], h[n - 1], states[n]);
      RunStep(h, n - 1);
    }
  }

  function PutList(h: seq<Op>, states: seq<State>, q: nat): seq<seq<Sending>>
    requires IsTrace(h, states)
  {
    seq(|h|, i requires 0 <= i < |h| => assert StepsTo(states[i], h[i], states[i + 1]); PutsOf(states[i], h[i], q))
  }

  /** Everything the first n operations put on queue q, in order. */
  function Puts(h: seq<Op>, states: seq<State>, n: nat, q: nat): seq<Sending>
    requires IsTrace(h, states) && n <= |h|
  {
    Joined(PutList(h, states, q), n)
  }

  /** Operation i is a message for the role that the hub accepts. */
  predicate RelayedAt(h: seq<Op>, states: seq<State>, i: nat, id: string, role: Role)
    requires IsTrace(h, states) && i < |h|
  {
    assert StepsTo(states[i], h[i], states[i + 1]);
    RelaysTo(h[i], id, role) && Apply(states[i], h[i]).1 == Done
  }

  /** Operation a attaches the role to queue q and hands it `queued`. */
  predicate AttachesAt(h: seq<Op>, states: seq<State>, a: nat, id: string, role: Role, q: nat,
                       queued: seq<Envelope>)
    requires IsTrace(h, states) && a < |h|
  {
    assert StepsTo(states[a], h[a], states[a + 1]);
    h[a] == Attach(id, role) && Apply(states[a], h[a]).1 == Attached(q, queued)
  }

  /** Queue q is there and was made for the role. */
  predicate MadeFor(s: State, q: nat, id: string, role: Role) {
    q < |s.queues| && s.queues[q].id == id && s.queues[q].role == role
  }

  /** What matters here of a hub and of the next operation: how many queues there are, whether q is the
      role's and still open, what is put on it, and whether a message for the role is accepted. */
  datatype Moment = Moment(queues: nat, made: bool, open: bool, puts: seq<Sending>, accepted: bool)

  function MomentOf(s: State, op: Op, q: nat, id: string, role: Role): Moment
    requires Valid(s)
  {
    Moment(|s.queues|, MadeFor(s, q, id, role), Open(s, q), PutsOf(s, op, q),
           RelaysTo(op, id, role) && Apply(s, op).1 == Done)
  }

  predicate Follows(v: Moment, w: Moment) {
    && v.queues <= w.queues
    && (v.made ==> w.made)
    && (v.made && w.open ==> v.open)
  }

  predicate Fits(m: Moment, q: nat) {
    && (m.queues <= q ==> m.puts == [])
    && (m.puts != [] ==> m.open)
    && (m.made && m.open ==> (m.accepted <==> HasRelayed(m.puts)))
  }

  lemma SendFits(s: State, op: Op, q: nat, id: string, role: Role)
    requires Valid(s) && !op.Relay?
    ensures Fits(MomentOf(s, op, q, id, role), q)
  {
  }

  /** Nothing is put on a queue before it is made, nor after it is closed; meanwhile, what the hub accepts
      for its role is what it puts there. */
  lemma MomentFits(s: State, op: Op, q: nat, id: string, role: Role)
    requires Valid(s)
    ensures Fits(MomentOf(s, op, q, id, role), q)
  {
    if !op.Relay? {
      SendFits(s, op, q, id, role);
    } else if op.id in s.sessions && OppositeRole(op.from) in s.sessions[op.id].peers {
      assert SessionValid(s, op.id);
      assert PeerValid(s, op.id, OppositeRole(op.from));
      if PutsOf(s, op, q) != [] {
        assert PutsOf(s, op, q)[0].relayed;
      }
      assert Open(s, q) ==> QueueHeld(s, q);
    } else {
      assert Open(s, q) ==> QueueHeld(s, q);
    }
  }

  /** Queues are never unmade, and never opened again. */
  lemma MomentFollows(s: State, op: Op, op': Op, q: nat, id: string, role: Role)
    requires Valid(s) && Valid(Apply(s, op).0)
    ensures Follows(MomentOf(s, op, q, id, role), MomentOf(Apply(s, op).0, op', q, id, role))
  {
  }

  lemma {:induction false} FollowsLater(moments: seq<Moment>, i: nat, j: nat)
    requires i <= j < |moments|
    requires forall k | 0 < k < |moments| :: Follows(moments[k - 1], moments[k])
    ensures Follows(moments[i], moments[j])
  {
    if i < j {
      FollowsLater(moments, i, j - 1);
      assert Follows(moments[j - 1], moments[j]);
    }
  }

  /** Before and by attaching, nothing is put on the queue; after that, and until a later send gets
      through, what the hub accepts for the role is. */
  lemma RelayedIsAccepted(moments: seq<Moment>, a: nat, i: nat, last: nat, q: nat)
    requires a < last < |moments| && i < last && moments[last].puts != []
    requires moments[a].queues == q && moments[a].puts == [] && moments[a + 1].made
    requires forall k | 0 < k < |moments| :: Follows(moments[k - 1], moments[k])
    requires forall k | 0 <= k < |moments| :: Fits(moments[k], q)
    ensures HasRelayed(moments[i].puts) <==> a < i && moments[i].accepted
  {
    assert Fits(moments[i], q) && Fits(moments[last], q);
    FollowsLater(moments, i, last);
    if i < a {
      FollowsLater(moments, i, a);
    } else if a < i {
      FollowsLater(moments, a + 1, i);
    }
  }

  lemma AttachMakesQueue(s: State, id: string, role: Role, q: nat, queued: seq<Envelope>)
    requires Valid(s) && Apply(s, Attach(id, role)).1 == Attached(q, queued)
    ensures q == |s.queues| && MadeFor(Apply(s, Attach(id, role)).0, q, id, role)
    ensures PutsOf(s, Attach(id, role), q) == []
  {
  }

  function Moments(h: seq<Op>, states: seq<State>, q: nat, id: string, role: Role): (moments: seq<Moment>)
    requires IsTrace(h, states)
    ensures |moments| == |h|
  {
    seq(|h|, i requires 0 <= i < |h| =>
      assert StepsTo(states[i], h[i], states[i + 1]); MomentOf(states[i], h[i], q, id, role))
  }

  lemma MomentsFollow(h: seq<Op>, states: seq<State>, k: nat, q: nat, id: string, role: Role)
    requires IsTrace(h, states) && 0 < k < |h|
    ensures Follows(Moments(h, states, q, id, role)[k - 1], Moments(h, states, q, id, role)[k])
  {
    assert StepsTo(states[k - 1], h[k - 1], states[k]);
    MomentFollows(states[k - 1], h[k - 1], h[k], q, id, role);
  }

  lemma MomentAt(h: seq<Op>, states: seq<State>, i: nat, q: nat, id: string, role: Role)
    requires IsTrace(h, states) && i < |h|
    ensures Fits(Moments(h, states, q, id, role)[i], q)
    ensures Moments(h, states, q, id, role)[i].puts == PutList(h, states, q)[i]
    ensures Moments(h, states, q, id, role)[i].accepted <==> RelayedAt(h, states, i, id, role)
  {
    assert StepsTo(states[i], h[i], states[i + 1]);
    MomentFits(states[i], h[i], q, id, role);
  }

  lemma MomentOfAttach(h: seq<Op>, states: seq<State>, a: nat, id: string, role: Role, q: nat,
                       queued: seq<Envelope>)
    requires IsTrace(h, states) && a + 1 < |h| && AttachesAt(h, states, a, id, role, q, queued)
    ensures var moments := Moments(h, states, q, id, role);
      moments[a].queues == q && moments[a].puts == [] && moments[a + 1].made
  {
    assert StepsTo(states[a], h[a], states[a + 1]);
    AttachMakesQueue(states[a], id, role, q, queued);
  }

  lemma RelaysAreAccepted(h: seq<Op>, states: seq<State>, a: nat, last: nat, id: string, role: Role, q: nat,
                          queued: seq<Envelope>)
    requires IsTrace(h, states) && a < last < |h| && AttachesAt(h, states, a, id, role, q, queued)
    requires |PutList(h, states, q)[last]| == 1
    ensures forall i | 0 <= i < last ::
      HasRelayed(PutList(h, states, q)[i]) <==> a < i && RelayedAt(h, states, i, id, role)
  {
    var moments := Moments(h, states, q, id, role);
    forall k | 0 < k < |moments| ensures Follows(moments[k - 1], moments[k]) {
      MomentsFollow(h, states, k, q, id, role);
    }
    forall i | 0 <= i < |moments|
      ensures Fits(moments[i], q) && moments[i].puts == PutList(h, states, q)[i]
      ensures moments[i].accepted <==> RelayedAt(h, states, i, id, role)
    {
      MomentAt(h, states, i, q, id, role);
    }
    MomentOfAttach(h, states, a, id, role, q, queued);
    forall i | 0 <= i < last
      ensures HasRelayed(PutList(h, states, q)[i]) <==> a < i && RelayedAt(h, states, i, id, role)
    {
      RelayedIsAccepted(moments, a, i, last, q);
    }
  }

  /** Whatever happens after a role has attached: once its goroutine has sent the notice and all that
      attach returned, the last of it by operation `last`, the queue has been given exactly that first, in
      order, if and only if the hub accepted no message for the role in between. */
  lemma BufferedFirstExactly(h: seq<Op>, states: seq<State>, a: nat, last: nat, id: string, role: Role, q: nat,
                             queued: seq<Envelope>, notice: Envelope)
    requires IsTrace(h, states) && a < last < |h| && AttachesAt(h, states, a, id, role, q, queued)
    requires Sent(Puts(h, states, last + 1, q)) == [notice] + queued
    requires |Sent(Puts(h, states, last, q))| == |queued|
    ensures |Puts(h, states, |h|, q)| >= 1 + |queued|
    ensures Puts(h, states, |h|, q)[..1 + |queued|] == FromServer([notice] + queued)
      <==> forall i | a < i < last :: !RelayedAt(h, states, i, id, role)
  {
    assert |PutList(h, states, q)[last]| <= 1 by {
      assert StepsTo(states[last], h[last], states[last + 1]);
    }
    JoinedBeginsWithSent(PutList(h, states, q), last, [notice] + queued);
    RelaysAreAccepted(h, states, a, last, id, role, q, queued);
  }

  // The failing histories.

  /** What attach returned is sent outside the lock, so a message relayed meanwhile overtakes it. */
  lemma DirectOvertakesBuffered(s: State, id: string, role: Role, late: Envelope, sent: Envelope)
    requires Valid(s) && id in s.sessions && role !in s.sessions[id].peers
    ensures var q := |s.queues|;
      var (attached, reply) := Apply(s, Attach(id, role));
      && Valid(attached)
      && reply == Attached(q, s.sessions[id].pending[role])
      && var relayed := Apply(attached, Relay(id, OppositeRole(role), late)).0;
      && Valid(relayed)
      && var after := Apply(relayed, Send(q, sent)).0;
      && q < |after.queues| && after.queues[q].items == [late, sent]
  {
    ApplyKeepsValid(s, Attach(id, role));
    ApplyKeepsValid(Apply(s, Attach(id, role)).0, Relay(id, OppositeRole(role), late));
  }

  /** After every history that leaves a role of an existing session absent: if it then attaches, and the hub
      accepts a message for it before its goroutine sends anything, that message comes first. */
  lemma RelayedComesFirst(h: seq<Op>, id: string, role: Role, late: Envelope, sent: Envelope)
    requires Created(h, id) && !IsAttached(h, id, role)
    ensures var q := |Run(h).queues|;
      && Apply(Run(h), Attach(id, role)).1 == Attached(q, LastOf(Waiting(h, id, role), MAX_PENDING_MESSAGES))
      && var after := Run(h + [Attach(id, role)] + [Relay(id, OppositeRole(role), late)] + [Send(q, sent)]);
      && q < |after.queues| && after.queues[q].items == [late, sent]
  {
    AttachReturnsWhatWaits(h, id, role);
    HubAgreesWithHistory(h, id, role);
    RunMore(h, Attach(id, role));
    var attached := h + [Attach(id, role)];
    RunMore(attached, Relay(id, OppositeRole(role), late));
    RunMore(attached + [Relay(id, OppositeRole(role), late)], Send(|Run(h).queues|, sent));
    DirectOvertakesBuffered(Run(h), id, role, late, sent);
  }

  lemma NoQueuesAtFirst(id: string, from: Role, early: Envelope)
    ensures Run([Create(id)] + [Relay(id, from, early)]).queues == []
  {
    RunMore([], Create(id));
    assert [] + [Create(id)] == [Create(id)];
    RunMore([Create(id)], Relay(id, from, early));
  }

  lemma WaitsFromStart(id: string, role: Role, early: Envelope)
    ensures var h := [Create(id)] + [Relay(id, OppositeRole(role), early)];
      Created(h, id) && !IsAttached(h, id, role) && Waiting(h, id, role) == [early]
  {
    HistoryStep([], Create(id), id, role);
    assert [] + [Create(id)] == [Create(id)];
    HistoryStep([Create(id)], Relay(id, OppositeRole(role), early), id, role);
  }

  /** From the start, for either role: a message waits, the role attaches, and a later message overtakes it. */
  lemma OvertakenFromStart(id: string, role: Role, early: Envelope, late: Envelope)
    ensures var from := OppositeRole(role);
      var h := [Create(id)] + [Relay(id, from, early)];
      && Apply(Run(h), Attach(id, role)).1 == Attached(0, [early])
      && var after := Run(h + [Attach(id, role)] + [Relay(id, from, late)] + [Send(0, early)]);
      && 0 < |after.queues| && after.queues[0].items == [late, early]
  {
    NoQueuesAtFirst(id, OppositeRole(role), early);
    WaitsFromStart(id, role, early);
    RelayedComesFirst([Create(id)] + [Relay(id, OppositeRole(role), early)], id, role, late, early);
  }
}
