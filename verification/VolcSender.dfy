/** The sending half of the Volcano Engine recognizer (internal/adapters/volc/asr.go): audio chunks are
    regrouped into packets of at least `targetBytes`. */
module VolcSender {
  import opened MuLaw
  import opened Outcome
  import opened Pcm
  import opened VolcPackets

  /** How sending ends: the input was closed, the context cancelled, or a write failed. */
  datatype Ending = Closed | Cancelled | WriteFailed

  const MAX_CHUNKS := 0x7FFF_FFFD  // enough packets to exhaust the 32-bit sequence numbers

  function ChunkMS(configured: int): nat {
    if configured <= 0 then 200 else configured
  }

  function TargetBytes(sampleRate: int, chunkMS: int): (n: nat)
    ensures n > 0
  {
    var n := Truncated(sampleRate * 2 * ChunkMS(chunkMS), 1000);
    if n <= 0 then 6400 else n
  }

  /** The buffers hold the audio of the configured time, 200 ms unless it is positive, or 6400 bytes if that comes
      to nothing. */
  lemma TargetIsDuration(sampleRate: int, chunkMS: int)
    ensures var ms, n := if chunkMS >= 1 then chunkMS else 200, TargetBytes(sampleRate, chunkMS);
      if sampleRate * 2 * ms >= 1000 then n * 1000 <= sampleRate * 2 * ms < (n + 1) * 1000 else n == 6400
  {
    var ms := if chunkMS >= 1 then chunkMS else 200;
    var bytes := sampleRate * 2 * ms;
    assert bytes >= 1000 ==> bytes / 1000 >= 1;
  }

  // The regrouping.

  datatype Groups = Groups(full: seq<seq<Byte>>, rest: seq<Byte>)

  /** The buffers flushed while receiving `chunks`, and what is left over. */
  function Regrouped(chunks: seq<seq<Byte>>, target: nat): (g: Groups)
    ensures |g.full| <= |chunks|
  {
    if chunks == [] then Groups([], [])
    else
      var before, chunk := Regrouped(chunks[..|chunks| - 1], target), chunks[|chunks| - 1];
      if chunk == [] then before
      else if |before.rest + chunk| >= target then Groups(before.full + [before.rest + chunk], [])
      else Groups(before.full, before.rest + chunk)
  }

  lemma {:induction false} RegroupingConserves(chunks: seq<seq<Byte>>, target: nat)
    ensures var g := Regrouped(chunks, target); Flatten(g.full) + g.rest == Flatten(chunks)
  {
    if chunks != [] {
      var before, chunk := chunks[..|chunks| - 1], chunks[|chunks| - 1];
      RegroupingConserves(before, target);
      var g, b := Regrouped(chunks, target), Regrouped(before, target);
      if chunk != [] {
        assert (Flatten(b.full) + b.rest) + chunk == Flatten(b.full) + (b.rest + chunk);
        assert g.full != b.full ==> g.full[..|g.full| - 1] == b.full;
      }
    }
  }

  /** Every flushed buffer has reached the target, but not by more than the chunk that completed it;
      the rest has not reached it. */
  lemma {:induction false} GroupSizes(chunks: seq<seq<Byte>>, target: nat, longest: nat)
    requires target > 0
    requires forall k | 0 <= k < |chunks| :: |chunks[k]| <= longest
    ensures var g := Regrouped(chunks, target);
      && |g.rest| < target
      && |g.full| <= |chunks|
      && (forall k | 0 <= k < |g.full| :: target <= |g.full[k]| < target + longest)
  {
    if chunks != [] {
      GroupSizes(chunks[..|chunks| - 1], target, longest);
    }
  }

  // The packets.

  function ZippedOrEmpty(z: Gzip, buffer: seq<Byte>): seq<Byte> {
    if buffer == [] then [] else z.zip(buffer)
  }

  function AudioPacket(z: Gzip, buffer: seq<Byte>, number: nat, last: bool): seq<Byte>
    requires number < 0x8000_0000
  {
    Message(Header(AUDIO_ONLY_REQUEST, if last then FLAG_NEG_WITH_SEQUENCE else FLAG_HAS_SEQUENCE, SERIALIZATION_NONE,
                   if buffer == [] then COMPRESSION_NONE else COMPRESSION_GZIP),
            if last then -(number as int) else number, ZippedOrEmpty(z, buffer))
  }

  function FirstPacket(z: Gzip, request: seq<Byte>): seq<Byte> {
    Message(Header(FULL_CLIENT_REQUEST, FLAG_HAS_SEQUENCE, SERIALIZATION_JSON, COMPRESSION_GZIP), 1, z.zip(request))
  }

  /** The bytes each packet starts with: its header and its sequence number. */
  lemma PacketsStartWith(z: Gzip, request: seq<Byte>, buffer: seq<Byte>, number: nat)
    requires 0 < number < 0x8000_0000
    ensures [0x11, 0x11, 0x11, 0x00, 0, 0, 0, 1] <= FirstPacket(z, request)
    ensures [0x11, 0x21, if buffer == [] then 0x00 else 0x01, 0x00] + BigEndian(number)
      <= AudioPacket(z, buffer, number, false)
    ensures [0x11, 0x23, if buffer == [] then 0x00 else 0x01, 0x00] + BigEndian(0x1_0000_0000 - number)
      <= AudioPacket(z, buffer, number, true)
  {
    assert BigEndian(1) == [0, 0, 0, 1];
  }

  /** The packets of the flushed buffers, numbered from 2. */
  function FullPackets(z: Gzip, full: seq<seq<Byte>>): seq<seq<Byte>>
    requires |full| < MAX_CHUNKS
  {
    seq(|full|, k requires 0 <= k < |full| => AudioPacket(z, full[k], k + 2, false))
  }

  /** Everything one undisturbed session writes. */
  function Session(z: Gzip, request: seq<Byte>, chunks: seq<seq<Byte>>, target: nat, closed: bool): seq<seq<Byte>>
    requires |chunks| < MAX_CHUNKS
  {
    var g := Regrouped(chunks, target);
    [FirstPacket(z, request)] + FullPackets(z, g.full)
    + if closed then [AudioPacket(z, g.rest, |g.full| + 2, true)] else []
  }

  /** The websocket, which takes `allowed` more messages before writing fails. */
  class Connection {
    var sent: seq<seq<Byte>>
    var allowed: nat

    constructor (allowed: nat)
      ensures sent == [] && this.allowed == allowed
    {
      sent, this.allowed := [], allowed;
    }

    method WriteMessage(m: seq<Byte>) returns (ok: bool)
      modifies this
      ensures ok == (old(allowed) > 0)
      ensures sent == old(sent) + if ok then [m] else []
      ensures allowed == if ok then old(allowed) - 1 else 0
    {
      ok := allowed > 0;
      if ok {
        sent := sent + [m];
        allowed := allowed - 1;
      }
    }
  }

  method Flush(z: Gzip, conn: Connection, buf: seq<Byte>, number: nat, last: bool) returns (ok: bool)
    requires number < 0x8000_0000
    modifies conn
    ensures ok == (old(conn.allowed) > 0)
    ensures conn.sent == old(conn.sent) + if ok then [AudioPacket(z, buf, number, last)] else []
    ensures conn.allowed == if ok then old(conn.allowed) - 1 else 0
  {
    var flags, s: int := FLAG_HAS_SEQUENCE, number;
    if last {
      flags, s := FLAG_NEG_WITH_SEQUENCE, -(number as int);
    }
    var compression, payload: seq<Byte> := COMPRESSION_GZIP, [];
    if |buf| > 0 {
      payload := z.zip(buf);
    } else {
      compression := COMPRESSION_NONE;
    }
    var m := Header(AUDIO_ONLY_REQUEST, flags, SERIALIZATION_NONE, compression);
    m := m + BigEndian(ToUint32(s));
    m := m + BigEndian(|payload| % 0x1_0000_0000);
    m := m + payload;
    assert m == AudioPacket(z, buf, number, last);
    ok := conn.WriteMessage(m);
  }

  lemma {:induction false} RegroupedGrows(chunks: seq<seq<Byte>>, target: nat, n: nat)
    requires n <= |chunks|
    ensures Regrouped(chunks[..n], target).full <= Regrouped(chunks, target).full
  {
    if n < |chunks| {
      var before := chunks[..|chunks| - 1];
      RegroupedGrows(before, target, n);
      assert before[..n] == chunks[..n];
    } else {
      assert chunks[..n] == chunks;
    }
  }

  /** A shorter session writes what a longer one starts with. */
  lemma SessionGrows(z: Gzip, request: seq<Byte>, chunks: seq<seq<Byte>>, target: nat, n: nat, closed: bool)
    requires n <= |chunks| < MAX_CHUNKS
    ensures Session(z, request, chunks[..n], target, false) <= Session(z, request, chunks, target, closed)
  {
    RegroupedGrows(chunks, target, n);
  }

  function UpTo<T>(s: seq<T>, n: nat): seq<T> {
    if n < |s| then s[..n] else s
  }

  /** Where sending stands when `n` chunks have been received. */
  ghost predicate Reached(z: Gzip, request: seq<Byte>, chunks: seq<seq<Byte>>, target: nat, n: nat,
                          buf: seq<Byte>, number: nat, sent: seq<seq<Byte>>)
    requires n <= |chunks| < MAX_CHUNKS
  {
    var g := Regrouped(chunks[..n], target);
    && buf == g.rest
    && number == |g.full| + 2
    && sent == Session(z, request, chunks[..n], target, false)
  }

  lemma ReachedNext(z: Gzip, request: seq<Byte>, chunks: seq<seq<Byte>>, target: nat, n: nat,
                    buf: seq<Byte>, number: nat, sent: seq<seq<Byte>>)
    requires n < |chunks| < MAX_CHUNKS && Reached(z, request, chunks, target, n, buf, number, sent)
    ensures number < 0x8000_0000
    ensures chunks[n] == [] ==> Reached(z, request, chunks, target, n + 1, buf, number, sent)
    ensures chunks[n] != [] ==>
      if |buf + chunks[n]| < target then Reached(z, request, chunks, target, n + 1, buf + chunks[n], number, sent)
      else Reached(z, request, chunks, target, n + 1, [], number + 1,
                   sent + [AudioPacket(z, buf + chunks[n], number, false)])
  {
    assert chunks[..n + 1][..n] == chunks[..n];
  }

  lemma ReachedIsPrefix(z: Gzip, request: seq<Byte>, chunks: seq<seq<Byte>>, target: nat, n: nat, closed: bool,
                        buf: seq<Byte>, number: nat, sent: seq<seq<Byte>>)
    requires n <= |chunks| < MAX_CHUNKS && Reached(z, request, chunks, target, n, buf, number, sent)
    ensures sent <= Session(z, request, chunks, target, closed)
    ensures n == |chunks| ==> number < 0x8000_0000
    ensures n == |chunks| ==> (Session(z, request, chunks, target, closed)
      == sent + if closed then [AudioPacket(z, buf, number, true)] else [])
  {
    SessionGrows(z, request, chunks, target, n, closed);
    if n == |chunks| {
      assert chunks[..n] == chunks;
    }
  }

  /** The receiving loop, entered once the request is sent; writing fails in it only once the
      connection takes no more. */
  method SendChunks(z: Gzip, conn: Connection, request: seq<Byte>, targetBytes: nat, chunks: seq<seq<Byte>>)
    returns (ok: bool, buf: seq<Byte>, number: nat)
    requires |chunks| < MAX_CHUNKS
    requires conn.sent == [FirstPacket(z, request)]
    modifies conn
    ensures |conn.sent| + conn.allowed == old(|conn.sent| + conn.allowed)
    ensures if ok then Reached(z, request, chunks, targetBytes, |chunks|, buf, number, conn.sent)
            else conn.allowed == 0 && conn.sent < Session(z, request, chunks, targetBytes, false)
  {
    number, buf := 2, [];
    for n := 0 to |chunks|
      invariant Reached(z, request, chunks, targetBytes, n, buf, number, conn.sent)
      invariant |conn.sent| + conn.allowed == old(|conn.sent| + conn.allowed)
    {
      ReachedNext(z, request, chunks, targetBytes, n, buf, number, conn.sent);
      if |chunks[n]| == 0 {
        continue;
      }
      buf := buf + chunks[n];
      if |buf| >= targetBytes {
        ok := Flush(z, conn, buf, number, false);
        if !ok {
          ReachedIsPrefix(z, request, chunks, targetBytes, n + 1, false, [], number + 1,
                          conn.sent + [AudioPacket(z, buf, number, false)]);
          return;
        }
        number := number + 1;
        buf := [];
      }
    }
    ok := true;
  }

  /** `chunks` are those received before the input was closed or, if not `closed`, before the
      cancelled context was noticed; the JSON of the first request is given. */
  method SendLoop(z: Gzip, conn: Connection, request: seq<Byte>, sampleRate: int, chunkMS: int,
                  chunks: seq<seq<Byte>>, closed: bool)
    returns (ending: Ending)
    requires sampleRate != 0
    requires conn.sent == []
    requires |chunks| < MAX_CHUNKS
    modifies conn
    ensures var all := Session(z, request, chunks, TargetBytes(sampleRate, chunkMS), closed);
      && conn.sent == UpTo(all, old(conn.allowed))
      && ending == if old(conn.allowed) < |all| then WriteFailed else if closed then Closed else Cancelled
  {
    var targetBytes := TargetBytes(sampleRate, chunkMS);
    var ok := conn.WriteMessage(FirstPacket(z, request));
    if !ok {
      return WriteFailed;
    }
    var buf, number;
    ok, buf, number := SendChunks(z, conn, request, targetBytes, chunks);
    if !ok {
      return WriteFailed;
    }
    ReachedIsPrefix(z, request, chunks, targetBytes, |chunks|, closed, buf, number, conn.sent);
    if !closed {
      return Cancelled;
    }
    ok := Flush(z, conn, buf, number, true);
    return if ok then Closed else WriteFailed;
  }

  // What the server reads.

  function Payload(z: Gzip, packet: seq<Byte>): seq<Byte> {
    match Parsed(z, packet)
    case Ok(p) => p.payload
    case Err(_) => []
  }

  function Payloads(z: Gzip, packets: seq<seq<Byte>>): seq<seq<Byte>> {
    seq(|packets|, k requires 0 <= k < |packets| => Payload(z, packets[k]))
  }

  /** The server reads `packet` as audio with this number, negated and flagged if it is the last. */
  predicate ReadsAs(z: Gzip, packet: seq<Byte>, number: nat, last: bool, audio: seq<Byte>)
    requires number < 0x8000_0000
  {
    Parsed(z, packet) == Ok(Packet(AUDIO_ONLY_REQUEST, if last then FLAG_NEG_WITH_SEQUENCE else FLAG_HAS_SEQUENCE,
                                   Some(if last then -(number as int) else number), None, audio))
  }

  lemma AudioPacketReadsBack(z: Gzip, buffer: seq<Byte>, number: nat, last: bool)
    requires Faithful(z) && number < 0x8000_0000 && |z.zip(buffer)| < 0x1_0000_0000
    ensures ReadsAs(z, AudioPacket(z, buffer, number, last), number, last, buffer)
  {
    var packet := AudioPacket(z, buffer, number, last);
    assert packet + [] == packet;
    assert z.zip(buffer) != [] && z.unzip(z.zip(buffer)) == Ok(buffer);
    ParseRecovers(z, AUDIO_ONLY_REQUEST, if last then FLAG_NEG_WITH_SEQUENCE else FLAG_HAS_SEQUENCE, SERIALIZATION_NONE,
                  if buffer == [] then COMPRESSION_NONE else COMPRESSION_GZIP,
                  if last then -(number as int) else number, ZippedOrEmpty(z, buffer), []);
  }

  lemma FirstPacketReadsBack(z: Gzip, request: seq<Byte>)
    requires Faithful(z) && |z.zip(request)| < 0x1_0000_0000
    ensures Parsed(z, FirstPacket(z, request)) ==
            Ok(Packet(FULL_CLIENT_REQUEST, FLAG_HAS_SEQUENCE, Some(1), None, request))
  {
    var packet := FirstPacket(z, request);
    assert packet + [] == packet;
    assert z.zip(request) != [] && z.unzip(z.zip(request)) == Ok(request);
    ParseRecovers(z, FULL_CLIENT_REQUEST, FLAG_HAS_SEQUENCE, SERIALIZATION_JSON, COMPRESSION_GZIP, 1,
                  z.zip(request), []);
  }

  /** The buffers of a closed session, one a packet. */
  function Buffers(chunks: seq<seq<Byte>>, target: nat): seq<seq<Byte>> {
    var g := Regrouped(chunks, target);
    g.full + [g.rest]
  }

  lemma SessionPackets(z: Gzip, request: seq<Byte>, chunks: seq<seq<Byte>>, target: nat, k: nat)
    requires |chunks| < MAX_CHUNKS
    ensures var all, buffers := Session(z, request, chunks, target, true), Buffers(chunks, target);
      && |all| == |buffers| + 1 && all[0] == FirstPacket(z, request)
      && (1 <= k < |all| ==> all[k] == AudioPacket(z, buffers[k - 1], k + 1, k == |all| - 1))
  {
  }

  /** Packet `k` of a session reads back under its number, and holds at least `target` bytes unless it
      is the last. */
  predicate PacketHeard(z: Gzip, all: seq<seq<Byte>>, k: nat, target: nat, longest: nat)
    requires 1 <= k < |all| < 0x8000_0000
  {
    var audio := Payload(z, all[k]);
    && ReadsAs(z, all[k], k + 1, k == |all| - 1, audio)
    && if k == |all| - 1 then |audio| < target else target <= |audio| < target + longest
  }

  lemma SessionReadsBack(z: Gzip, request: seq<Byte>, chunks: seq<seq<Byte>>, target: nat, longest: nat, k: nat)
    requires Faithful(z) && target > 0 && |chunks| < MAX_CHUNKS
    requires forall k | 0 <= k < |chunks| :: |chunks[k]| <= longest
    requires forall data | |data| < target + longest :: |z.zip(data)| < 0x1_0000_0000
    requires 1 <= k <= |Buffers(chunks, target)|
    ensures var all := Session(z, request, chunks, target, true);
      && |all| == |Buffers(chunks, target)| + 1
      && PacketHeard(z, all, k, target, longest)
      && Payload(z, all[k]) == Buffers(chunks, target)[k - 1]
  {
    var buffers := Buffers(chunks, target);
    SessionPackets(z, request, chunks, target, k);
    GroupSizes(chunks, target, longest);
    assert |buffers[k - 1]| < target + longest;
    AudioPacketReadsBack(z, buffers[k - 1], k + 1, k == |buffers|);
  }

  /** Everything a closed session sends reads back: the request as number 1, then audio numbered 2, 3,
      and so on with only the last number negated and flagged, at least `target` bytes in every audio
      packet but the last and fewer in the last, and put together exactly the audio received. */
  lemma NothingIsLost(z: Gzip, request: seq<Byte>, chunks: seq<seq<Byte>>, target: nat, longest: nat)
    requires Faithful(z) && target > 0 && |chunks| < MAX_CHUNKS
    requires forall k | 0 <= k < |chunks| :: |chunks[k]| <= longest
    requires |z.zip(request)| < 0x1_0000_0000
    requires forall data | |data| < target + longest :: |z.zip(data)| < 0x1_0000_0000
    ensures var all := Session(z, request, chunks, target, true);
      && 2 <= |all| < 0x8000_0000
      && Parsed(z, all[0]) == Ok(Packet(FULL_CLIENT_REQUEST, FLAG_HAS_SEQUENCE, Some(1), None, request))
      && (forall k | 1 <= k < |all| :: PacketHeard(z, all, k, target, longest))
      && Flatten(Payloads(z, all[1..])) == Flatten(chunks)
  {
    var all, n := Session(z, request, chunks, target, true), |Buffers(chunks, target)|;
    FirstPacketReadsBack(z, request);
    SessionPackets(z, request, chunks, target, 0);
    forall k | 1 <= k <= n
      ensures PacketHeard(z, all, k, target, longest)
      ensures Payload(z, all[k]) == Buffers(chunks, target)[k - 1]
    {
      SessionReadsBack(z, request, chunks, target, longest, k);
    }
    BuffersHoldTheInput(z, all, chunks, target);
  }

  lemma BuffersHoldTheInput(z: Gzip, packets: seq<seq<Byte>>, chunks: seq<seq<Byte>>, target: nat)
    requires |packets| == |Buffers(chunks, target)| + 1
    requires forall k | 1 <= k < |packets| :: Payload(z, packets[k]) == Buffers(chunks, target)[k - 1]
    ensures Flatten(Payloads(z, packets[1..])) == Flatten(chunks)
  {
    var buffers := Buffers(chunks, target);
    assert Payloads(z, packets[1..]) == buffers;
    assert buffers[..|buffers| - 1] == Regrouped(chunks, target).full;
    RegroupingConserves(chunks, target);
  }
}
