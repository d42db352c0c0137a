/** The binary protocol of the Volcano Engine recognizer (internal/adapters/volc/binary.go). */
module VolcPackets {
  import opened MuLaw
  import opened Outcome
  import opened Text

  const PROTO_VERSION := 0x1
  const HEADER_UNITS := 0x1

  const FULL_CLIENT_REQUEST := 0x1
  const AUDIO_ONLY_REQUEST := 0x2
  const SERVER_ACK := 0xB
  const SERVER_ERROR := 0xF

  const FLAG_HAS_SEQUENCE := 0x1
  const FLAG_NEG_WITH_SEQUENCE := 0x3

  const SERIALIZATION_NONE := 0x0
  const SERIALIZATION_JSON := 0x1

  const COMPRESSION_NONE := 0x0
  const COMPRESSION_GZIP := 0x1

  type Nibble = x: int | 0 <= x < 0x10
  type Uint32 = x: int | 0 <= x < 0x1_0000_0000
  type Int32 = x: int | -0x8000_0000 <= x < 0x8000_0000

  datatype Packet = Packet(messageType: Nibble, flags: Nibble, sequence: Option<Int32>,
                           errCode: Option<Uint32>, payload: seq<Byte>)

  /** compress/gzip, of which nothing is known but what `Faithful` says. */
  datatype Gzip = Gzip(zip: seq<Byte> -> seq<Byte>, unzip: seq<Byte> -> Result<seq<Byte>>)

  /** Unzipping inverts zipping, and zipped data is never empty (section 2.3 of RFC 1952). */
  ghost predicate Faithful(g: Gzip) {
    forall data :: g.zip(data) != [] && g.unzip(g.zip(data)) == Ok(data)
  }

  function ToUint32(v: Int32): Uint32 {
    if v < 0 then v + 0x1_0000_0000 else v
  }

  function ToInt32(u: Uint32): Int32 {
    if u >= 0x8000_0000 then u - 0x1_0000_0000 else u
  }

  function BigEndian(u: Uint32): seq<Byte> {
    var high: int, low: int := u / 0x1_0000, u % 0x1_0000;
    [high / 0x100, high % 0x100, low / 0x100, low % 0x100]
  }

  function Uint32At(data: seq<Byte>, at: nat): Uint32
    requires at + 4 <= |data|
  {
    var high: int, low: int := 0x100 * data[at] as int + data[at + 1], 0x100 * data[at + 2] as int + data[at + 3];
    0x1_0000 * high + low
  }

  lemma ReadsBack(data: seq<Byte>, at: nat, u: Uint32)
    requires at + 4 <= |data| && data[at..at + 4] == BigEndian(u)
    ensures Uint32At(data, at) == u
  {
    var word := data[at..at + 4];
    assert word[0] == data[at] && word[1] == data[at + 1] && word[2] == data[at + 2] && word[3] == data[at + 3];
  }

  function Header(messageType: Nibble, flags: Nibble, serialization: Nibble, compression: Nibble): seq<Byte> {
    [PROTO_VERSION * 0x10 + HEADER_UNITS, messageType * 0x10 + flags, serialization * 0x10 + compression, 0]
  }

  /** A byte shifted left by four keeps its low half. */
  lemma ShiftedNibble(b: Byte)
    ensures b * 0x10 % 0x100 == b % 0x10 * 0x10
  {
    assert b == b / 0x10 * 0x10 + b % 0x10;
  }

  method MakeHeader(messageType: Byte, flags: Byte, serialization: Byte, compression: Byte)
    returns (h: array<Byte>)
    ensures fresh(h)
    ensures h[..] == Header(messageType % 0x10, flags % 0x10, serialization % 0x10, compression % 0x10)
  {
    h := new Byte[4];
    h[0] := PROTO_VERSION * 0x10 + HEADER_UNITS;
    ShiftedNibble(messageType);
    h[1] := messageType * 0x10 % 0x100 + flags % 0x10;
    h[2] := serialization % 0x10 * 0x10 + compression % 0x10;
    h[3] := 0;
  }

  function Sized(payload: seq<Byte>): seq<Byte> {
    BigEndian(|payload| % 0x1_0000_0000) + payload
  }

  /** Every message the adapter sends is laid out this way. */
  function Message(head: seq<Byte>, sequence: Int32, payload: seq<Byte>): seq<Byte> {
    head + BigEndian(ToUint32(sequence)) + Sized(payload)
  }

  // What a packet says, read off its layout.

  function SizedPayload(data: seq<Byte>, at: nat, missing: string, truncated: string): Result<seq<Byte>>
    requires at <= |data|
  {
    if |data| < at + 4 then Err(missing)
    else
      var size := Uint32At(data, at);
      if |data| < at + 4 + size then Err(truncated) else Ok(data[at + 4..at + 4 + size])
  }

  function Body(messageType: Nibble, data: seq<Byte>, at: nat): Result<(Option<Uint32>, seq<Byte>)>
    requires at <= |data|
  {
    if messageType == SERVER_ACK then
      Ok((None, []))
    else if messageType == SERVER_ERROR then
      if |data| < at + 8 then Err("missing error fields")
      else
        match SizedPayload(data, at + 4, "missing error fields", "error payload truncated")
        case Err(m) => Err(m)
        case Ok(payload) => Ok((Some(Uint32At(data, at)), payload))
    else
      match SizedPayload(data, at, "missing payload size", "payload truncated")
      case Err(m) => Err(m)
      case Ok(payload) => Ok((None, payload))
  }

  function Decoded(g: Gzip, compression: Nibble, payload: seq<Byte>): Result<seq<Byte>> {
    if compression == COMPRESSION_GZIP && payload != [] then g.unzip(payload) else Ok(payload)
  }

  datatype Prefix = Prefix(messageType: Nibble, flags: Nibble, compression: Nibble, sequence: Option<Int32>, end: nat)

  function PrefixOf(data: seq<Byte>): (r: Result<Prefix>)
    ensures r.Ok? ==> r.value.end <= |data|
  {
    if |data| < 4 then Err("packet too short")
    else if data[0] / 0x10 != PROTO_VERSION then Err("unexpected protocol version")
    else
      var headerLen := data[0] % 0x10 * 4;
      if headerLen < 4 || |data| < headerLen then Err("invalid header size")
      else if data[1] % 2 == 0 then
        Ok(Prefix(data[1] / 0x10, data[1] % 0x10, data[2] % 0x10, None, headerLen))
      else if |data| < headerLen + 4 then Err("missing sequence field")
      else
        Ok(Prefix(data[1] / 0x10, data[1] % 0x10, data[2] % 0x10, Some(ToInt32(Uint32At(data, headerLen))),
                  headerLen + 4))
  }

  function Assembled(g: Gzip, prefix: Prefix, data: seq<Byte>): Result<Packet>
    requires prefix.end <= |data|
  {
    match Body(prefix.messageType, data, prefix.end)
    case Err(m) => Err(m)
    case Ok(body) =>
      match Decoded(g, prefix.compression, body.1)
      case Err(m) => Err("gunzip payload: " + m)
      case Ok(payload) => Ok(Packet(prefix.messageType, prefix.flags, prefix.sequence, body.0, payload))
  }

  function Parsed(g: Gzip, data: seq<Byte>): Result<Packet> {
    match PrefixOf(data)
    case Err(m) => Err(m)
    case Ok(prefix) => Assembled(g, prefix, data)
  }

  method ParsePrefix(data: seq<Byte>) returns (r: Result<Prefix>)
    ensures r == PrefixOf(data)
  {
    if |data| < 4 {
      return Err("packet too short");
    }
    var version, headerSizeUnits := data[0] / 0x10, data[0] % 0x10;
    if version != PROTO_VERSION {
      return Err("unexpected protocol version");
    }
    var offset := headerSizeUnits * 4;
    if offset < 4 || |data| < offset {
      return Err("invalid header size");
    }
    var messageType, flags := data[1] / 0x10, data[1] % 0x10;
    var sequence: Option<Int32> := None;
    if flags % 2 != 0 {
      if |data| < offset + 4 {
        return Err("missing sequence field");
      }
      sequence := Some(ToInt32(Uint32At(data, offset)));
      offset := offset + 4;
    }
    return Ok(Prefix(messageType, flags, data[2] % 0x10, sequence, offset));
  }

  method ParsePacket(g: Gzip, data: seq<Byte>) returns (r: Result<Packet>)
    ensures r == Parsed(g, data)
  {
    var prefix := ParsePrefix(data);
    if prefix.Err? {
      return Err(prefix.message);
    }
    var Prefix(messageType, flags, compression, sequence, offset) := prefix.value;
    var errCode: Option<Uint32> := None;
    var payload: seq<Byte> := [];
    if messageType == SERVER_ERROR {
      if |data| < offset + 8 {
        return Err("missing error fields");
      }
      errCode := Some(Uint32At(data, offset));
      offset := offset + 4;
      var payloadSize := Uint32At(data, offset);
      offset := offset + 4;
      if |data| < offset + payloadSize {
        return Err("error payload truncated");
      }
      payload := data[offset..offset + payloadSize];
    } else if messageType != SERVER_ACK {
      if |data| < offset + 4 {
        return Err("missing payload size");
      }
      var payloadSize := Uint32At(data, offset);
      offset := offset + 4;
      if |data| < offset + payloadSize {
        return Err("payload truncated");
      }
      payload := data[offset..offset + payloadSize];
    }
    if compression == COMPRESSION_GZIP && |payload| > 0 {
      var decoded := g.unzip(payload);
      if decoded.Err? {
        return Err("gunzip payload: " + decoded.message);
      }
      payload := decoded.value;
    }
    return Ok(Packet(messageType, flags, sequence, errCode, payload));
  }

  // Reading back what was written.

  lemma PrefixReadsBack(data: seq<Byte>, messageType: Nibble, flags: Nibble, serialization: Nibble,
                        compression: Nibble, sequence: Option<Int32>)
    requires sequence.Some? <==> flags % 2 == 1
    requires |data| >= 4 && data[..4] == Header(messageType, flags, serialization, compression)
    requires sequence.Some? ==> |data| >= 8 && data[4..8] == BigEndian(ToUint32(sequence.value))
    ensures PrefixOf(data) ==
            Ok(Prefix(messageType, flags, compression, sequence, if sequence.Some? then 8 else 4))
  {
    HeaderReadsBack(data, messageType, flags, serialization, compression);
    if sequence.Some? {
      ReadsBack(data, 4, ToUint32(sequence.value));
    }
  }

  lemma HeaderReadsBack(data: seq<Byte>, messageType: Nibble, flags: Nibble, serialization: Nibble, compression: Nibble)
    requires |data| >= 4 && data[..4] == Header(messageType, flags, serialization, compression)
    ensures data[0] / 0x10 == PROTO_VERSION && data[0] % 0x10 == HEADER_UNITS
    ensures data[1] / 0x10 == messageType && data[1] % 0x10 == flags && data[1] % 2 == flags % 2
    ensures data[2] / 0x10 == serialization && data[2] % 0x10 == compression && data[3] == 0
  {
    var head := data[..4];
    assert data[0] == head[0] && data[1] == head[1] && data[2] == head[2] && data[3] == head[3];
  }

  lemma SizedSplits(data: seq<Byte>, at: nat, payload: seq<Byte>)
    requires |payload| < 0x1_0000_0000
    requires at + 4 + |payload| <= |data| && data[at..at + 4 + |payload|] == Sized(payload)
    ensures data[at..at + 4] == BigEndian(|payload|) && data[at + 4..at + 4 + |payload|] == payload
  {
    var size, end := BigEndian(|payload|), 4 + |payload|;
    assert (size + payload)[0..4] == size && (size + payload)[4..end] == payload;
    SliceOfSlice(data, at, at + end, 0, 4);
    SliceOfSlice(data, at, at + end, 4, end);
  }

  lemma SizedReadsBack(data: seq<Byte>, at: nat, payload: seq<Byte>, missing: string, truncated: string)
    requires |payload| < 0x1_0000_0000
    requires at + 4 + |payload| <= |data| && data[at..at + 4 + |payload|] == Sized(payload)
    ensures SizedPayload(data, at, missing, truncated) == Ok(payload)
  {
    SizedSplits(data, at, payload);
    ReadsBack(data, at, |payload|);
  }

  lemma MessageLayout(messageType: Nibble, flags: Nibble, serialization: Nibble, compression: Nibble,
                      sequence: Int32, payload: seq<Byte>, more: seq<Byte>)
    ensures var head := Header(messageType, flags, serialization, compression);
      var data := Message(head, sequence, payload) + more;
      && |data| == 12 + |payload| + |more|
      && data[..4] == head && data[4..8] == BigEndian(ToUint32(sequence))
      && data[8..12 + |payload|] == Sized(payload)
  {
  }

  /** A message is recovered from any bytes that start with it. (A message sent without a sequence
      number has another layout; the adapter sends none.) */
  lemma ParseRecovers(g: Gzip, messageType: Nibble, flags: Nibble, serialization: Nibble, compression: Nibble,
                      sequence: Int32, payload: seq<Byte>, more: seq<Byte>)
    requires messageType != SERVER_ACK && messageType != SERVER_ERROR && flags % 2 == 1
    requires |payload| < 0x1_0000_0000
    ensures var head := Header(messageType, flags, serialization, compression);
      Parsed(g, Message(head, sequence, payload) + more) ==
      if compression != 1 || payload == [] then Ok(Packet(messageType, flags, Some(sequence), None, payload))
      else
        match g.unzip(payload)
        case Err(m) => Err("gunzip payload: " + m)
        case Ok(content) => Ok(Packet(messageType, flags, Some(sequence), None, content))
  {
    MessageLayout(messageType, flags, serialization, compression, sequence, payload, more);
    var data := Message(Header(messageType, flags, serialization, compression), sequence, payload) + more;
    PrefixReadsBack(data, messageType, flags, serialization, compression, Some(sequence));
    SizedReadsBack(data, 8, payload, "missing payload size", "payload truncated");
  }

  /** Behind the first four bytes, `data` is `short` moved by d. */
  ghost predicate Moved(short: seq<Byte>, data: seq<Byte>, d: nat) {
    |data| == |short| + d && forall i | 4 <= i < |short| :: short[i] == data[i + d]
  }

  lemma MovedSlice(short: seq<Byte>, data: seq<Byte>, d: nat, from: nat, end: nat)
    requires Moved(short, data, d) && 4 <= from <= end <= |short|
    ensures short[from..end] == data[from + d..end + d]
  {
    forall k | 0 <= k < end - from ensures short[from..end][k] == data[from + d..end + d][k] {
      assert short[from + k] == data[from + k + d];
    }
  }

  lemma MovedSize(short: seq<Byte>, data: seq<Byte>, d: nat, at: nat, missing: string, truncated: string)
    requires Moved(short, data, d) && 4 <= at <= |short|
    ensures SizedPayload(short, at, missing, truncated) == SizedPayload(data, at + d, missing, truncated)
  {
    if at + 4 <= |short| {
      assert Uint32At(short, at) == Uint32At(data, at + d);
      var from, end := at + 4, at + 4 + Uint32At(short, at);
      if end <= |short| {
        MovedSlice(short, data, d, from, end);
      }
    }
  }

  lemma MovedBody(short: seq<Byte>, data: seq<Byte>, d: nat, messageType: Nibble, at: nat)
    requires Moved(short, data, d) && 4 <= at <= |short|
    ensures Body(messageType, short, at) == Body(messageType, data, at + d)
  {
    MovedSize(short, data, d, at, "missing payload size", "payload truncated");
    if at + 8 <= |short| {
      MovedSize(short, data, d, at + 4, "missing error fields", "error payload truncated");
      assert Uint32At(short, at) == Uint32At(data, at + d);
    }
  }

  /** A header may be longer than four bytes, as its size in words says; the rest of it is skipped. */
  lemma ExtensionIsSkipped(g: Gzip, data: seq<Byte>, words: nat)
    requires 1 <= words <= 15 && 4 * words <= |data| && data[0] == 0x10 + words
    ensures Parsed(g, data) == Parsed(g, [0x11] + data[1..4] + data[4 * words..])
  {
    var short, d := [0x11] + data[1..4] + data[4 * words..], 4 * words - 4;
    assert Moved(short, data, d);
    MovedParsed(g, short, data, words);
  }

  lemma MovedParsed(g: Gzip, short: seq<Byte>, data: seq<Byte>, words: nat)
    requires 1 <= words <= 15 && |short| >= 4 && Moved(short, data, 4 * words - 4)
    requires data[0] == 0x10 + words && short[0] == 0x11 && short[1] == data[1] && short[2] == data[2]
    ensures Parsed(g, data) == Parsed(g, short)
  {
    MovedPrefix(short, data, words);
    if PrefixOf(short).Ok? {
      MovedBody(short, data, 4 * words - 4, data[1] / 0x10, PrefixOf(short).value.end);
    }
  }

  lemma MovedPrefix(short: seq<Byte>, data: seq<Byte>, words: nat)
    requires 1 <= words <= 15 && |short| >= 4 && Moved(short, data, 4 * words - 4)
    requires data[0] == 0x10 + words && short[0] == 0x11 && short[1] == data[1] && short[2] == data[2]
    ensures match PrefixOf(short)
      case Err(m) => PrefixOf(data) == Err(m)
      case Ok(p) =>
        && p.end >= 4 && p.messageType == data[1] / 0x10
        && PrefixOf(data) == Ok(p.(end := p.end + 4 * words - 4))
  {
    assert data[0] / 0x10 == 1 && data[0] % 0x10 == words;
    if |short| >= 8 {
      assert Uint32At(short, 4) == Uint32At(data, 4 * words);
    }
  }

  lemma ShortIsRejected(g: Gzip, data: seq<Byte>, messageType: Nibble, flags: Nibble, serialization: Nibble,
                        compression: Nibble, sequence: Int32, size: Uint32)
    requires messageType != SERVER_ACK && messageType != SERVER_ERROR && flags % 2 == 1
    requires |data| < 12 + size
    requires |data| >= 4 ==> data[..4] == Header(messageType, flags, serialization, compression)
    requires |data| >= 8 ==> data[4..8] == BigEndian(ToUint32(sequence))
    requires |data| >= 12 ==> data[8..12] == BigEndian(size)
    ensures Parsed(g, data).Err?
  {
    if |data| >= 12 {
      ReadsBack(data, 8, size);
    }
    if |data| >= 8 {
      PrefixReadsBack(data, messageType, flags, serialization, compression, Some(sequence));
    } else if |data| >= 4 {
      var head := data[..4];
      assert data[0] == head[0] && data[1] == head[1];
    }
  }

  /** No proper prefix of a message is taken for a packet. */
  lemma TruncationIsNoticed(g: Gzip, messageType: Nibble, flags: Nibble, serialization: Nibble, compression: Nibble,
                            sequence: Int32, payload: seq<Byte>, k: nat)
    requires messageType != SERVER_ACK && messageType != SERVER_ERROR && flags % 2 == 1
    requires |payload| < 0x1_0000_0000
    requires k < |Message(Header(messageType, flags, serialization, compression), sequence, payload)|
    ensures Parsed(g, Message(Header(messageType, flags, serialization, compression), sequence, payload)[..k]).Err?
  {
    var head := Header(messageType, flags, serialization, compression);
    MessageStarts(head, sequence, payload, k);
    ShortIsRejected(g, Message(head, sequence, payload)[..k], messageType, flags, serialization, compression, sequence,
                    |payload|);
  }

  lemma MessageStarts(head: seq<Byte>, sequence: Int32, payload: seq<Byte>, k: nat)
    requires |head| == 4 && |payload| < 0x1_0000_0000 && k <= |Message(head, sequence, payload)|
    ensures |Message(head, sequence, payload)| == 12 + |payload|
    ensures var data := Message(head, sequence, payload)[..k];
      && (k >= 4 ==> data[..4] == head)
      && (k >= 8 ==> data[4..8] == BigEndian(ToUint32(sequence)))
      && (k >= 12 ==> data[8..12] == BigEndian(|payload|))
  {
    var message, word := Message(head, sequence, payload), BigEndian(ToUint32(sequence));
    assert message[..4] == head && message[4..8] == word && message[8..] == BigEndian(|payload|) + payload;
    StartOf(message, k, BigEndian(|payload|), payload);
  }

  lemma StartOf(message: seq<Byte>, k: nat, size: seq<Byte>, payload: seq<Byte>)
    requires |message| == 12 + |payload| && k <= |message| && |size| == 4 && message[8..] == size + payload
    ensures k >= 4 ==> message[..k][..4] == message[..4]
    ensures k >= 8 ==> message[..k][4..8] == message[4..8]
    ensures k >= 12 ==> message[..k][8..12] == size
  {
    assert message[8..][..4] == size && message[8..][..4] == message[8..12];
  }

  /** The layout of a server error, with a sequence number or without. */
  function ErrorMessage(head: seq<Byte>, sequence: Option<Int32>, code: Uint32, payload: seq<Byte>): seq<Byte> {
    head + (if sequence.Some? then BigEndian(ToUint32(sequence.value)) else []) + BigEndian(code) + Sized(payload)
  }

  lemma ErrorLayout(head: seq<Byte>, sequence: Option<Int32>, code: Uint32, payload: seq<Byte>, more: seq<Byte>)
    requires |head| == 4
    ensures var data, at := ErrorMessage(head, sequence, code, payload) + more, if sequence.Some? then 8 else 4;
      && |data| == at + 8 + |payload| + |more|
      && data[..4] == head
      && (sequence.Some? ==> data[4..8] == BigEndian(ToUint32(sequence.value)))
      && data[at..at + 4] == BigEndian(code)
      && data[at + 4..at + 8 + |payload|] == Sized(payload)
  {
    var field := if sequence.Some? then BigEndian(ToUint32(sequence.value)) else [];
    Laid(head, field, BigEndian(code), Sized(payload), more);
  }

  lemma Laid(a: seq<Byte>, b: seq<Byte>, c: seq<Byte>, d: seq<Byte>, more: seq<Byte>)
    ensures var data, x, y := a + b + c + d + more, |a| + |b|, |a| + |b| + |c|;
      data[..|a|] == a && data[|a|..x] == b && data[x..y] == c && data[y..y + |d|] == d
  {
    var data := a + b + c + d + more;
    assert data == a + (b + (c + (d + more)));
  }

  /** A server error is recovered with its code, whether or not it carries a sequence number, and its payload
      unzipped if it is zipped, from any bytes that start with it. */
  lemma ParseServerError(g: Gzip, flags: Nibble, serialization: Nibble, compression: Nibble, sequence: Option<Int32>,
                         code: Uint32, payload: seq<Byte>, more: seq<Byte>)
    requires sequence.Some? <==> flags % 2 == 1
    requires |payload| < 0x1_0000_0000
    ensures var head := Header(SERVER_ERROR, flags, serialization, compression);
      Parsed(g, ErrorMessage(head, sequence, code, payload) + more) ==
      if compression != 1 || payload == [] then Ok(Packet(SERVER_ERROR, flags, sequence, Some(code), payload))
      else
        match g.unzip(payload)
        case Err(m) => Err("gunzip payload: " + m)
        case Ok(content) => Ok(Packet(SERVER_ERROR, flags, sequence, Some(code), content))
  {
    var head := Header(SERVER_ERROR, flags, serialization, compression);
    var data, at := ErrorMessage(head, sequence, code, payload) + more, if sequence.Some? then 8 else 4;
    ErrorLayout(head, sequence, code, payload, more);
    PrefixReadsBack(data, SERVER_ERROR, flags, serialization, compression, sequence);
    ReadsBack(data, at, code);
    SizedReadsBack(data, at + 4, payload, "missing error fields", "error payload truncated");
  }
}
