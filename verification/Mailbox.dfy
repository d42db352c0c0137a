/** The signalling hub (internal/app/signal/hub.go): two roles per session, messages for an absent role
    kept until it attaches. A peer's send channel is a numbered queue. */
module Mailbox {
  import opened Buffering

  const MAX_PENDING_MESSAGES := 16

  type Envelope = string

  datatype Role = Client | Bot

  /** The channel of one peer, with the session and role it was made for. */
  datatype Queue = Queue(id: string, role: Role, items: seq<Envelope>, closed: bool)

  datatype Session = Session(peers: map<Role, nat>, pending: map<Role, seq<Envelope>>)

  datatype State = State(sessions: map<string, Session>, queues: seq<Queue>)

  datatype Op =
    | Create(id: string)
    | Attach(id: string, role: Role)
    | Detach(id: string, role: Role)
    | Relay(id: string, from: Role, envelope: Envelope)
    | Send(queue: nat, envelope: Envelope)  // the server's own blocking sends to its peer
    | Drain(queue: nat)                     // the peer's write loop

  datatype Reply = Done | Attached(queue: nat, queued: seq<Envelope>) | Failed(message: string)

  const NO_SESSION := "session not found"
  const ALREADY_ATTACHED := "role already attached"
  const QUEUE_FULL := "send queue full"

  const START := State(map[], [])

  function OppositeRole(role: Role): (opposite: Role)
    ensures opposite != role
  {
    if role == Client then Bot else Client
  }

  // The hub's operations on values.

  predicate Open(s: State, q: nat) {
    q < |s.queues| && !s.queues[q].closed
  }

  ghost predicate SessionValid(s: State, id: string)
    requires id in s.sessions
  {
    && (forall r: Role :: r in s.sessions[id].pending)
    && (forall r | r in s.sessions[id].peers :: PeerValid(s, id, r))
  }

  /** An attached peer has an open queue, and it is its own. */
  ghost predicate PeerValid(s: State, id: string, role: Role)
    requires id in s.sessions && role in s.sessions[id].peers
  {
    var q := s.sessions[id].peers[role];
    Open(s, q) && s.queues[q].id == id && s.queues[q].role == role
  }

  /** An open queue is held by the peer it was made for. */
  ghost predicate QueueHeld(s: State, q: nat)
    requires q < |s.queues|
  {
    var id, role := s.queues[q].id, s.queues[q].role;
    id in s.sessions && role in s.sessions[id].peers && s.sessions[id].peers[role] == q
  }

  ghost predicate Valid(s: State) {
    && (forall id | id in s.sessions :: SessionValid(s, id))
    && (forall q: nat | Open(s, q) :: QueueHeld(s, q))
    && (forall q | 0 <= q < |s.queues| :: |s.queues[q].items| <= MAX_PENDING_MESSAGES)
  }

  function Put(s: State, q: nat, e: Envelope): State
    requires q < |s.queues|
  {
    s.(queues := s.queues[q := s.queues[q].(items := s.queues[q].items + [e])])
  }

  function CreateIn(s: State, id: string): State {
    if id in s.sessions then s
    else s.(sessions := s.sessions[id := Session(map[], map[Client := [], Bot := []])])
  }

  function AttachIn(s: State, id: string, role: Role): (State, Reply)
    requires Valid(s)
  {
    if id !in s.sessions then (s, Failed(NO_SESSION))
    else
      var session := s.sessions[id];
      if role in session.peers then (s, Failed(ALREADY_ATTACHED))
      else
        var attached := Session(session.peers[role := |s.queues|], session.pending[role := []]);
        (State(s.sessions[id := attached], s.queues + [Queue(id, role, [], false)]),
         Attached(|s.queues|, session.pending[role]))
  }

  function DetachIn(s: State, id: string, role: Role): State
    requires Valid(s)
  {
    if id !in s.sessions || role !in s.sessions[id].peers then s
    else
      var session, q := s.sessions[id], s.sessions[id].peers[role];
      State(s.sessions[id := session.(peers := session.peers - {role})], s.queues[q := s.queues[q].(closed := true)])
  }

  function RelayIn(s: State, id: string, from: Role, e: Envelope): (State, Reply)
    requires Valid(s)
  {
    if id !in s.sessions then (s, Failed(NO_SESSION))
    else
      var session, target := s.sessions[id], OppositeRole(from);
      if target in session.peers then
        if |s.queues[session.peers[target]].items| < MAX_PENDING_MESSAGES then
          (Put(s, session.peers[target], e), Done)
        else
          (s, Failed(QUEUE_FULL))
      else
        var waiting := LastOf(session.pending[target] + [e], MAX_PENDING_MESSAGES);
        (s.(sessions := s.sessions[id := session.(pending := session.pending[target := waiting])]), Done)
  }

  function Apply(s: State, op: Op): (State, Reply)
    requires Valid(s)
  {
    match op
    case Create(id) => (CreateIn(s, id), Done)
    case Attach(id, role) => AttachIn(s, id, role)
    case Detach(id, role) => (DetachIn(s, id, role), Done)
    case Relay(id, from, e) => RelayIn(s, id, from, e)
    case Send(q, e) =>
      (if Open(s, q) && |s.queues[q].items| < MAX_PENDING_MESSAGES then Put(s, q, e) else s, Done)
    case Drain(q) =>
      if q < |s.queues| && s.queues[q].items != [] then
        (s.(queues := s.queues[q := s.queues[q].(items := s.queues[q].items[1..])]), Done)
      else (s, Done)
  }

  class Hub {
    var sessions: map<string, Session>
    var queues: seq<Queue>

    ghost function Abs(): State
      reads this
    {
      State(sessions, queues)
    }

    constructor ()
      ensures Abs() == START
    {
      sessions, queues := map[], [];
    }

    method CreateSession(id: string)
      modifies this
      ensures Abs() == CreateIn(old(Abs()), id)
    {
      if id in sessions {
        return;
      }
      sessions := sessions[id := Session(map[], map[Client := [], Bot := []])];
    }

    method AttachPeer(id: string, role: Role) returns (reply: Reply)
      requires Valid(Abs())
      modifies this
      ensures (Abs(), reply) == AttachIn(old(Abs()), id, role)
    {
      if id !in sessions {
        return Failed(NO_SESSION);
      }
      var session := sessions[id];
      if role in session.peers {
        return Failed(ALREADY_ATTACHED);
      }
      var send := |queues|;
      queues := queues + [Queue(id, role, [], false)];
      session := session.(peers := session.peers[role := send]);
      var queued := session.pending[role];
      session := session.(pending := session.pending[role := []]);
      sessions := sessions[id := session];
      return Attached(send, queued);
    }

    method DetachPeer(id: string, role: Role)
      requires Valid(Abs())
      modifies this
      ensures Abs() == DetachIn(old(Abs()), id, role)
    {
      if id !in sessions {
        return;
      }
      var session := sessions[id];
      if role in session.peers {
        var send := session.peers[role];
        sessions := sessions[id := session.(peers := session.peers - {role})];
        queues := queues[send := queues[send].(closed := true)];
      }
    }

    method RelayMessage(id: string, from: Role, envelope: Envelope) returns (reply: Reply)
      requires Valid(Abs())
      modifies this
      ensures (Abs(), reply) == RelayIn(old(Abs()), id, from, envelope)
    {
      if id !in sessions {
        return Failed(NO_SESSION);
      }
      var session := sessions[id];
      var target := OppositeRole(from);
      if target in session.peers {
        var send := session.peers[target];
        if |queues[send].items| < MAX_PENDING_MESSAGES {
          queues := queues[send := queues[send].(items := queues[send].items + [envelope])];
          return Done;
        }
        return Failed(QUEUE_FULL);
      }
      var queue := session.pending[target] + [envelope];
      if |queue| > MAX_PENDING_MESSAGES {
        queue := queue[|queue| - MAX_PENDING_MESSAGES..];
      }
      sessions := sessions[id := session.(pending := session.pending[target := queue])];
      return Done;
    }
  }

  lemma ApplyKeepsPeerValid(s: State, op: Op, id: string, role: Role)
    requires Valid(s)
    requires var s' := Apply(s, op).0; id in s'.sessions && role in s'.sessions[id].peers
    ensures PeerValid(Apply(s, op).0, id, role)
  {
    if id in s.sessions {
      assert SessionValid(s, id);
      assert role in s.sessions[id].peers ==> PeerValid(s, id, role);
    }
    if op.Detach? && op.id in s.sessions && op.role in s.sessions[op.id].peers {
      assert PeerValid(s, op.id, op.role);
    }
  }

  lemma ApplyKeepsSessionValid(s: State, op: Op, id: string)
    requires Valid(s) && id in Apply(s, op).0.sessions
    ensures SessionValid(Apply(s, op).0, id)
  {
    assert id in s.sessions ==> SessionValid(s, id);
    var s' := Apply(s, op).0;
    forall r: Role ensures r in s'.sessions[id].pending {
      assert r == Client || r == Bot;
    }
    forall r | r in s'.sessions[id].peers ensures PeerValid(s', id, r) {
      ApplyKeepsPeerValid(s, op, id, r);
    }
  }

  lemma ApplyKeepsQueueHeld(s: State, op: Op, q: nat)
    requires Valid(s) && Open(Apply(s, op).0, q)
    ensures QueueHeld(Apply(s, op).0, q)
  {
    assert Open(s, q) ==> QueueHeld(s, q);
  }

  /** Every operation leaves the queues of all attached peers open, each peer with one of its own, every
      other queue closed, and none longer than its capacity; a relay never meets a closed queue. */
  lemma ApplyKeepsValid(s: State, op: Op)
    requires Valid(s)
    ensures Valid(Apply(s, op).0)
  {
    forall id | id in Apply(s, op).0.sessions ensures SessionValid(Apply(s, op).0, id) {
      ApplyKeepsSessionValid(s, op, id);
    }
    forall q: nat | Open(Apply(s, op).0, q) ensures QueueHeld(Apply(s, op).0, q) {
      ApplyKeepsQueueHeld(s, op, q);
    }
  }

  /** Nothing is ever added to a closed queue, and it is never opened again. */
  lemma ClosedQueuesOnlyDrain(s: State, op: Op, q: nat)
    requires Valid(s) && q < |s.queues| && s.queues[q].closed
    ensures q < |Apply(s, op).0.queues| && Apply(s, op).0.queues[q].closed
    ensures var items := Apply(s, op).0.queues[q].items;
      items == s.queues[q].items || (op == Drain(q) && [s.queues[q].items[0]] + items == s.queues[q].items)
  {
  }

  // What a history of operations means, told without pending lists or queues.

  function Run(h: seq<Op>): (s: State)
    ensures Valid(s)
  {
    if h == [] then START
    else
      var before := Run(h[..|h| - 1]);
      ApplyKeepsValid(before, h[|h| - 1]);
      Apply(before, h[|h| - 1]).0
  }

  predicate Created(h: seq<Op>, id: string) {
    Create(id) in h
  }

  /** The last of the role's attaches and detaches, once the session exists, is an attach. */
  predicate IsAttached(h: seq<Op>, id: string, role: Role) {
    h != [] &&
    var before, op := h[..|h| - 1], h[|h| - 1];
    if op == Detach(id, role) then false
    else (op == Attach(id, role) && Created(before, id)) || IsAttached(before, id, role)
  }

  predicate RelaysTo(op: Op, id: string, role: Role) {
    op.Relay? && op.id == id && op.from == OppositeRole(role)
  }

  /** Everything relayed to the role since it was last attached, while it was away. */
  function Waiting(h: seq<Op>, id: string, role: Role): seq<Envelope> {
    if h == [] then []
    else
      var before, op := h[..|h| - 1], h[|h| - 1];
      if !Created(before, id) || IsAttached(before, id, role) then []
      else if op == Attach(id, role) then []
      else if RelaysTo(op, id, role) then Waiting(before, id, role) + [op.envelope]
      else Waiting(before, id, role)
  }

  /** What the hub holds for a role, given what its history says. */
  ghost predicate Holds(s: State, id: string, role: Role, created: bool, attached: bool, waiting: seq<Envelope>) {
    && (id in s.sessions <==> created)
    && (attached ==> created && waiting == [])
    && (created ==>
          && (role in s.sessions[id].peers <==> attached)
          && role in s.sessions[id].pending
          && s.sessions[id].pending[role] == LastOf(waiting, MAX_PENDING_MESSAGES))
  }

  ghost predicate Agrees(s: State, h: seq<Op>, id: string, role: Role) {
    Holds(s, id, role, Created(h, id), IsAttached(h, id, role), Waiting(h, id, role))
  }

  lemma HistoryStep(h: seq<Op>, op: Op, id: string, role: Role)
    ensures Created(h + [op], id) <==> Created(h, id) || op == Create(id)
    ensures IsAttached(h + [op], id, role) <==>
      op != Detach(id, role) && ((op == Attach(id, role) && Created(h, id)) || IsAttached(h, id, role))
    ensures Waiting(h + [op], id, role) ==
            if !Created(h, id) || IsAttached(h, id, role) || op == Attach(id, role) then []
            else if RelaysTo(op, id, role) then Waiting(h, id, role) + [op.envelope]
            else Waiting(h, id, role)
  {
    assert (h + [op])[..|h|] == h;
  }

  lemma StepHolds(s: State, op: Op, id: string, role: Role, created: bool, attached: bool, waiting: seq<Envelope>)
    requires Valid(s) && Holds(s, id, role, created, attached, waiting) && !op.Relay?
    ensures Holds(Apply(s, op).0, id, role, created || op == Create(id),
                  op != Detach(id, role) && ((op == Attach(id, role) && created) || attached),
                  if !created || attached || op == Attach(id, role) then [] else waiting)
  {
  }

  lemma RelayHolds(s: State, op: Op, id: string, role: Role, created: bool, attached: bool, waiting: seq<Envelope>)
    requires Valid(s) && Holds(s, id, role, created, attached, waiting) && op.Relay?
    ensures Holds(Apply(s, op).0, id, role, created, attached,
                  if !created || attached then []
                  else if RelaysTo(op, id, role) then waiting + [op.envelope] else waiting)
  {
    LastOfSnoc(waiting, op.envelope, MAX_PENDING_MESSAGES);
  }

  lemma StepAgrees(h: seq<Op>, op: Op, s: State, id: string, role: Role)
    requires Valid(s) && Agrees(s, h, id, role)
    ensures Agrees(Apply(s, op).0, h + [op], id, role)
  {
    HistoryStep(h, op, id, role);
    if op.Relay? {
      RelayHolds(s, op, id, role, Created(h, id), IsAttached(h, id, role), Waiting(h, id, role));
    } else {
      StepHolds(s, op, id, role, Created(h, id), IsAttached(h, id, role), Waiting(h, id, role));
    }
  }

  /** The hub holds, for every session and role, exactly what the history says: whether the role is
      attached, and the last messages that wait for it. */
  lemma {:induction false} HubAgreesWithHistory(h: seq<Op>, id: string, role: Role)
    ensures Agrees(Run(h), h, id, role)
  {
    if h != [] {
      var before, op := h[..|h| - 1], h[|h| - 1];
      HubAgreesWithHistory(before, id, role);
      StepAgrees(before, op, Run(before), id, role);
      assert h == before + [op];
    }
  }

  /** Attaching fails exactly if the session does not exist or the role is attached, and otherwise
      returns the last sixteen, in order, of all that was relayed to the role while it was away. */
  lemma AttachReturnsWhatWaits(h: seq<Op>, id: string, role: Role)
    ensures Apply(Run(h), Attach(id, role)).1 ==
            if !Created(h, id) then Failed(NO_SESSION)
            else if IsAttached(h, id, role) then Failed(ALREADY_ATTACHED)
            else Attached(|Run(h).queues|, LastOf(Waiting(h, id, role), MAX_PENDING_MESSAGES))
  {
    HubAgreesWithHistory(h, id, role);
  }

  /** These are as many of the messages that wait as there are, but at most sixteen, and the newest, in order. */
  lemma AttachReturnsNewest(h: seq<Op>, id: string, role: Role, queued: seq<Envelope>)
    requires Apply(Run(h), Attach(id, role)).1 == Attached(|Run(h).queues|, queued)
    ensures IsTail(queued, Waiting(h, id, role), 16)
  {
    AttachReturnsWhatWaits(h, id, role);
    LastOfIsTail(Waiting(h, id, role), MAX_PENDING_MESSAGES);
  }

  /** The message relayed last to a role that is away is kept, however many wait, and returned last. */
  lemma NewestWaits(h: seq<Op>, id: string, role: Role, e: Envelope)
    requires Created(h, id) && !IsAttached(h, id, role)
    ensures var answer := Apply(Run(h + [Relay(id, OppositeRole(role), e)]), Attach(id, role)).1;
      answer.Attached? && answer.queued != [] && answer.queued[|answer.queued| - 1] == e
  {
    var relay := Relay(id, OppositeRole(role), e);
    HistoryStep(h, relay, id, role);
    AttachReturnsWhatWaits(h + [relay], id, role);
    LastOfIsTail(Waiting(h, id, role) + [e], MAX_PENDING_MESSAGES);
    TailEndsWithNewest(LastOf(Waiting(h, id, role) + [e], MAX_PENDING_MESSAGES), Waiting(h, id, role), e,
                       MAX_PENDING_MESSAGES);
  }

  /** A relayed message reaches the attached role's own open queue and no other, unless that is full;
      for an absent role it waits. */
  lemma RelayReachesItsRole(h: seq<Op>, id: string, from: Role, e: Envelope)
    ensures var (s, reply) := Apply(Run(h), Relay(id, from, e));
      var role := OppositeRole(from);
      if !Created(h, id) then s == Run(h) && reply == Failed(NO_SESSION)
      else if !IsAttached(h, id, role) then s.queues == Run(h).queues && reply == Done
      else
        && id in Run(h).sessions && role in Run(h).sessions[id].peers
        && var q := Run(h).sessions[id].peers[role];
        && Open(Run(h), q)
        && (if |Run(h).queues[q].items| == MAX_PENDING_MESSAGES then s == Run(h) && reply == Failed(QUEUE_FULL)
            else s == Put(Run(h), q, e) && reply == Done)
  {
    HubAgreesWithHistory(h, id, OppositeRole(from));
  }

  /** A role that is attached has nothing pending. */
  lemma AttachedHasNothingPending(h: seq<Op>, id: string, role: Role)
    ensures id in Run(h).sessions && role in Run(h).sessions[id].peers ==> Run(h).sessions[id].pending[role] == []
  {
    HubAgreesWithHistory(h, id, role);
  }
}
