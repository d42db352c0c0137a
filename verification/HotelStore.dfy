/** The demo hotel's inventory and reservation log (internal/hotel/store.go). Creation times are left
    out. */
module HotelStore {
  import opened Text

  const CONFIRMED := "confirmed"
  const SOLD_OUT := "sold_out"
  const INVALID_INPUT := "invalid_input"

  datatype Room = Room(id: string, name: string, available: nat)

  datatype Reservation = Reservation(id: string, status: string, message: string, roomTypeID: string,
                                     roomTypeName: string, guestName: string, phoneNumber: string,
                                     availableAfter: nat)

  datatype Input = Input(roomTypeID: string, guestName: string, phoneNumber: string)

  datatype State = State(rooms: map<string, Room>, log: seq<Reservation>, nextID: nat)

  const MISSING_FIELDS := "房型、入住人姓名和手机号不能为空"
  const BAD_PHONE := "手机号需为3到20位数字"
  const UNKNOWN_ROOM := "未找到对应房型"
  const NONE_LEFT := "当前已售罄"

  const SEED: map<string, Room> := map[
    "deluxe-king" := Room("deluxe-king", "豪华大床房", 3),
    "garden-twin" := Room("garden-twin", "花园双床房", 2),
    "family-suite" := Room("family-suite", "家庭套房", 1)]

  const OPENING := State(SEED, [], 1)

  // Numbers in text.

  function Value(digits: string): nat
    requires forall i | 0 <= i < |digits| :: IsDigit(digits[i])
  {
    if digits == "" then 0
    else
      assert IsDigit(digits[|digits| - 1]);
      Value(digits[..|digits| - 1]) * 10 + (digits[|digits| - 1] as int - '0' as int)
  }

  function Decimal(n: nat): (s: string)
    ensures s != "" && forall i | 0 <= i < |s| :: IsDigit(s[i])
  {
    (if n < 10 then "" else Decimal(n / 10)) + [('0' as int + n % 10) as char]
  }

  function Zeros(k: nat): (s: string)
    ensures |s| == k && forall i | 0 <= i < k :: s[i] == '0'
  {
    if k == 0 then "" else Zeros(k - 1) + "0"
  }

  /** The format %06d. */
  function Padded(n: nat): (s: string)
    ensures forall i | 0 <= i < |s| :: IsDigit(s[i])
  {
    Zeros(if |Decimal(n)| < 6 then 6 - |Decimal(n)| else 0) + Decimal(n)
  }

  function ReservationID(n: nat): string {
    "res_" + Padded(n)
  }

  lemma {:induction false} ValueOfDecimal(n: nat)
    ensures Value(Decimal(n)) == n
  {
    if n >= 10 {
      ValueOfDecimal(n / 10);
      assert Decimal(n)[..|Decimal(n)| - 1] == Decimal(n / 10);
    }
  }

  lemma {:induction false} ValueOfZeros(k: nat)
    ensures Value(Zeros(k)) == 0
  {
    if k > 0 {
      ValueOfZeros(k - 1);
      assert Zeros(k)[..k - 1] == Zeros(k - 1);
    }
  }

  lemma {:induction false} LeadingZeros(k: nat, s: string)
    requires forall i | 0 <= i < |s| :: IsDigit(s[i])
    ensures Value(Zeros(k) + s) == Value(s)
  {
    if s == "" {
      ValueOfZeros(k);
      assert Zeros(k) + s == Zeros(k);
    } else {
      var t := Zeros(k) + s;
      LeadingZeros(k, s[..|s| - 1]);
      assert t[..|t| - 1] == Zeros(k) + s[..|s| - 1];
    }
  }

  /** Different numbers make different reservation ids, however many digits they take. */
  lemma ReservationIDsDiffer(m: nat, n: nat)
    requires m != n
    ensures ReservationID(m) != ReservationID(n)
  {
    ValueOfDecimal(m);
    ValueOfDecimal(n);
    LeadingZeros(if |Decimal(m)| < 6 then 6 - |Decimal(m)| else 0, Decimal(m));
    LeadingZeros(if |Decimal(n)| < 6 then 6 - |Decimal(n)| else 0, Decimal(n));
    assert ReservationID(m)[4..] == Padded(m);
    assert ReservationID(n)[4..] == Padded(n);
  }

  /** The digits of an id read as its number, are at least six, and start with a zero only to be six. */
  lemma ReservationIDReads(n: nat)
    ensures var id := ReservationID(n);
      && |id| >= 10 && id[..4] == "res_" && (forall i | 4 <= i < |id| :: IsDigit(id[i]))
      && Value(id[4..]) == n && (|id| > 10 ==> id[4] != '0')
  {
    ValueOfDecimal(n);
    DecimalLeads(n);
    LeadingZeros(if |Decimal(n)| < 6 then 6 - |Decimal(n)| else 0, Decimal(n));
    assert ReservationID(n)[4..] == Padded(n);
  }

  lemma FirstReservationID()
    ensures ReservationID(1) == "res_000001" && ReservationID(10) == "res_000010"
  {
    assert Decimal(1) == "1" && Decimal(10) == "10";
  }

  lemma {:induction false} DecimalLeads(n: nat)
    ensures |Decimal(n)| > 1 ==> Decimal(n)[0] != '0'
    ensures n > 0 ==> Decimal(n)[0] != '0'
  {
    if n >= 10 {
      DecimalLeads(n / 10);
    }
  }

  // Phone numbers.

  /** The pattern ^\d{3,20}$. */
  predicate DemoPhone(s: string) {
    3 <= |s| <= 20 && forall i | 0 <= i < |s| :: IsDigit(s[i])
  }

  /** The pattern ^([0-9]+)个([0-9])$. */
  predicate RepeatedDigit(s: string) {
    && |s| >= 3
    && s[|s| - 2] == '个'
    && IsDigit(s[|s| - 1])
    && forall i | 0 <= i < |s| - 2 :: IsDigit(s[i])
  }

  predicate IsSeparator(c: char) {
    c == ' ' || c == '-'
  }

  function Repeat(c: char, count: nat): (s: string)
    ensures |s| == count && forall i | 0 <= i < count :: s[i] == c
  {
    seq(count, i => c)
  }

  function NormalizedPhone(phoneNumber: string): string {
    SpeltOut(Without(IsSeparator, TrimSpace(phoneNumber)))
  }

  function SpeltOut(normalized: string): string {
    if !RepeatedDigit(normalized) then normalized
    else
      var count := Value(normalized[..|normalized| - 2]);
      if count < 1 || count > 20 then normalized else Repeat(normalized[|normalized| - 1], count)
  }

  /** Without separators, and without white space at its ends, a number is only spelt out. */
  lemma NothingToClean(s: string)
    requires s != "" && !IsSpace(s[0]) && !IsSpace(s[|s| - 1])
    requires forall i | 0 <= i < |s| :: !IsSeparator(s[i])
    ensures NormalizedPhone(s) == SpeltOut(s)
  {
    assert TrimSpace(s) == s;
    WithoutNothing(IsSeparator, s);
  }

  lemma DigitIsInk(c: char)
    requires IsDigit(c) || c == '个'
    ensures !IsSpace(c) && !IsSeparator(c)
  {
  }

  /** A stored number is normalized to itself. */
  lemma DemoPhoneIsNormal(s: string)
    requires DemoPhone(s)
    ensures NormalizedPhone(s) == s
  {
    forall i | 0 <= i < |s| ensures !IsSpace(s[i]) && !IsSeparator(s[i]) {
      DigitIsInk(s[i]);
    }
    NothingToClean(s);
    assert IsDigit(s[|s| - 2]);
  }

  /** A number given in two groups, apart by a space or a dash, is taken as one. */
  lemma GroupedNumber(a: string, b: string, separator: char)
    requires a != "" && b != "" && DemoPhone(a + b) && (separator == ' ' || separator == '-')
    ensures NormalizedPhone(a + [separator] + b) == a + b
  {
    var s := a + [separator] + b;
    PhoneIsClean(a + b, a);
    PhoneIsClean(a + b, b);
    assert s[0] == a[0] && s[|s| - 1] == b[|b| - 1];
    InkAtEnds(s);
    WithoutOne(a, separator, b);
    PhoneIsSpelt(a + b);
  }

  lemma WithoutOne(a: string, separator: char, b: string)
    requires IsSeparator(separator)
    requires (forall i | 0 <= i < |a| :: !IsSeparator(a[i])) && (forall i | 0 <= i < |b| :: !IsSeparator(b[i]))
    ensures Without(IsSeparator, a + [separator] + b) == a + b
  {
    WithoutConcat(IsSeparator, a + [separator], b);
    WithoutDropped(IsSeparator, a, separator);
    WithoutNothing(IsSeparator, a);
    WithoutNothing(IsSeparator, b);
  }

  lemma PhoneIsClean(number: string, part: string)
    requires DemoPhone(number) && (part <= number || (|part| <= |number| && number[|number| - |part|..] == part))
    ensures forall i | 0 <= i < |part| :: !IsSpace(part[i]) && !IsSeparator(part[i])
  {
    forall i | 0 <= i < |part| ensures !IsSpace(part[i]) && !IsSeparator(part[i]) {
      assert part[i] == number[i] || part[i] == number[|number| - |part| + i];
      DigitIsInk(part[i]);
    }
  }

  lemma InkAtEnds(s: string)
    requires s != "" && !IsSpace(s[0]) && !IsSpace(s[|s| - 1])
    ensures TrimSpace(s) == s
  {
  }

  lemma PhoneIsSpelt(s: string)
    requires DemoPhone(s)
    ensures SpeltOut(s) == s
  {
    assert IsDigit(s[|s| - 2]);
  }

  /** Spoken as "n个d", one to twenty equal digits are understood, whatever zeros precede n, and any other
      count is left as it was said; a phone number comes of it exactly for 3 to 20. */
  lemma SpokenNumber(digits: string, d: char)
    requires digits != "" && (forall i | 0 <= i < |digits| :: IsDigit(digits[i])) && IsDigit(d)
    ensures var spoken, count := digits + ['个', d], Value(digits);
      && NormalizedPhone(spoken) == (if 1 <= count <= 20 then Repeat(d, count) else spoken)
      && (DemoPhone(NormalizedPhone(spoken)) <==> 3 <= count <= 20)
  {
    var spoken := digits + ['个', d];
    SpokenIsClean(digits, d);
    NothingToClean(spoken);
    SpeltOutNumber(digits, d);
    WhichArePhones(digits, d, Value(digits));
  }

  lemma WhichArePhones(digits: string, d: char, count: nat)
    requires IsDigit(d)
    ensures DemoPhone(if 1 <= count <= 20 then Repeat(d, count) else digits + ['个', d]) <==> 3 <= count <= 20
  {
    var spoken := digits + ['个', d];
    assert spoken[|digits|] == '个' && !IsDigit('个');
    if 3 <= count <= 20 {
      assert DemoPhone(Repeat(d, count));
    }
  }

  lemma SpokenIsClean(digits: string, d: char)
    requires (forall i | 0 <= i < |digits| :: IsDigit(digits[i])) && IsDigit(d)
    ensures var s := digits + ['个', d]; forall i | 0 <= i < |s| :: !IsSpace(s[i]) && !IsSeparator(s[i])
  {
    var s := digits + ['个', d];
    forall i | 0 <= i < |s| ensures !IsSpace(s[i]) && !IsSeparator(s[i]) {
      DigitIsInk(s[i]);
    }
  }

  lemma SpeltOutNumber(digits: string, d: char)
    requires digits != "" && (forall i | 0 <= i < |digits| :: IsDigit(digits[i])) && IsDigit(d)
    ensures var spoken, count := digits + ['个', d], Value(digits);
      SpeltOut(spoken) == if 1 <= count <= 20 then Repeat(d, count) else spoken
  {
    var spoken := digits + ['个', d];
    SpokenRepeats(digits, d);
    assert spoken[..|spoken| - 2] == digits && spoken[|spoken| - 1] == d;
  }

  lemma SpokenRepeats(digits: string, d: char)
    requires digits != "" && (forall i | 0 <= i < |digits| :: IsDigit(digits[i])) && IsDigit(d)
    ensures RepeatedDigit(digits + ['个', d])
  {
  }

  // Creating a reservation.

  /** What a request asks for, once its fields are cleaned up. */
  function Cleaned(input: Input): Input {
    Input(TrimSpace(input.roomTypeID), TrimSpace(input.guestName), NormalizedPhone(input.phoneNumber))
  }

  predicate Complete(c: Input) {
    c.roomTypeID != "" && c.guestName != "" && c.phoneNumber != ""
  }

  /** A request that only a lack of rooms can turn down. */
  predicate WellFormed(c: Input) {
    Complete(c) && DemoPhone(c.phoneNumber) && c.roomTypeID in SEED
  }

  function Record(s: State, c: Input, status: string, message: string, roomName: string, after: nat): Reservation {
    Reservation(ReservationID(s.nextID), status, message, c.roomTypeID, roomName, c.guestName, c.phoneNumber, after)
  }

  function Answer(s: State, input: Input): Reservation {
    var c := Cleaned(input);
    if !Complete(c) then Record(s, c, INVALID_INPUT, MISSING_FIELDS, "", 0)
    else if !DemoPhone(c.phoneNumber) then Record(s, c, INVALID_INPUT, BAD_PHONE, "", 0)
    else if c.roomTypeID !in s.rooms then Record(s, c, INVALID_INPUT, UNKNOWN_ROOM, "", 0)
    else
      var room := s.rooms[c.roomTypeID];
      if room.available < 1 then Record(s, c, SOLD_OUT, room.name + NONE_LEFT, room.name, room.available)
      else
        Record(s, c, CONFIRMED, room.name + "已为" + c.guestName + "预订成功", room.name, room.available - 1)
  }

  function Deducted(rooms: map<string, Room>, r: Reservation): map<string, Room> {
    if r.status == CONFIRMED && r.roomTypeID in rooms then
      rooms[r.roomTypeID := rooms[r.roomTypeID].(available := r.availableAfter)]
    else rooms
  }

  function After(s: State, input: Input): State {
    var r := Answer(s, input);
    State(Deducted(s.rooms, r), s.log + [r], s.nextID + 1)
  }

  class Store {
    var rooms: map<string, Room>
    var reservations: seq<Reservation>
    var nextID: nat

    ghost function Abs(): State
      reads this
    {
      State(rooms, reservations, nextID)
    }

    constructor ()
      ensures Abs() == OPENING
    {
      rooms, reservations, nextID := SEED, [], 1;
    }

    method ListReservations(limit: int) returns (items: seq<Reservation>)
      ensures |items| == if limit <= 0 || limit > |reservations| then |reservations| else limit
      ensures forall k | 0 <= k < |items| :: items[k] == reservations[|reservations| - 1 - k]
    {
      var max := if limit <= 0 || limit > |reservations| then |reservations| else limit;
      items := [];
      var idx := |reservations| - 1;
      while idx >= 0 && |items| < max
        invariant idx == |reservations| - 1 - |items| && |items| <= max
        invariant forall k | 0 <= k < |items| :: items[k] == reservations[|reservations| - 1 - k]
        decreases idx
      {
        items := items + [reservations[idx]];
        idx := idx - 1;
      }
    }

    method NextReservationID() returns (id: string)
      modifies this`nextID
      ensures id == ReservationID(old(nextID)) && nextID == old(nextID) + 1
    {
      id := ReservationID(nextID);
      nextID := nextID + 1;
    }

    method CreateReservation(input: Input) returns (reservation: Reservation)
      modifies this
      ensures reservation == Answer(old(Abs()), input)
      ensures Abs() == After(old(Abs()), input)
    {
      var guestName := TrimSpace(input.guestName);
      var phoneNumber := NormalizedPhone(input.phoneNumber);
      var roomTypeID := TrimSpace(input.roomTypeID);
      assert Cleaned(input) == Input(roomTypeID, guestName, phoneNumber);
      var id := NextReservationID();
      reservation := Reservation(id, "", "", roomTypeID, "", guestName, phoneNumber, 0);
      if roomTypeID == "" || guestName == "" || phoneNumber == "" {
        reservation := reservation.(status := INVALID_INPUT, message := MISSING_FIELDS);
        reservations := reservations + [reservation];
        return;
      }
      if !DemoPhone(phoneNumber) {
        reservation := reservation.(status := INVALID_INPUT, message := BAD_PHONE);
        reservations := reservations + [reservation];
        return;
      }
      if roomTypeID !in rooms {
        reservation := reservation.(status := INVALID_INPUT, message := UNKNOWN_ROOM);
        reservations := reservations + [reservation];
        return;
      }
      var room := rooms[roomTypeID];
      reservation := reservation.(roomTypeName := room.name, availableAfter := room.available);
      if room.available < 1 {
        reservation := reservation.(status := SOLD_OUT, message := room.name + NONE_LEFT);
        reservations := reservations + [reservation];
        return;
      }
      room := room.(available := room.available - 1);
      rooms := rooms[roomTypeID := room];
      var message := room.name + "已为" + guestName + "预订成功";
      reservation := reservation.(status := CONFIRMED, availableAfter := room.available, message := message);
      reservations := reservations + [reservation];
    }
  }

  // Every history of requests.

  function Run(h: seq<Input>): State {
    if h == [] then OPENING else After(Run(h[..|h| - 1]), h[|h| - 1])
  }

  predicate Books(r: Reservation, id: string) {
    r.status == CONFIRMED && r.roomTypeID == id
  }

  /** The confirmed records of a room. */
  function Booked(log: seq<Reservation>, id: string): nat {
    if log == [] then 0
    else Booked(log[..|log| - 1], id) + if Books(log[|log| - 1], id) then 1 else 0
  }

  /** The inventory says exactly what the log says. */
  ghost predicate Consistent(s: State) {
    && s.rooms.Keys == SEED.Keys
    && (forall id | id in SEED :: RoomConsistent(s, id))
    && s.nextID == |s.log| + 1
    && (forall k | 0 <= k < |s.log| :: RecordConsistent(s.log, k))
  }

  ghost predicate RoomConsistent(s: State, id: string)
    requires id in SEED
  {
    && id in s.rooms
    && s.rooms[id].name == SEED[id].name
    && s.rooms[id].available + Booked(s.log, id) == SEED[id].available
  }

  /** Record k has the k-th id; if it is confirmed, it is for a real room, with a name and a proper
      number, and says how many rooms of its kind were left; if it says sold out, none was left; if it
      is not confirmed, its message is one of the known refusals. */
  ghost predicate RecordConsistent(log: seq<Reservation>, k: nat)
    requires k < |log|
  {
    var r := log[k];
    && r.id == ReservationID(k + 1)
    && (r.status == CONFIRMED ==>
          && r.roomTypeID in SEED && r.guestName != "" && DemoPhone(r.phoneNumber)
          && r.availableAfter + Booked(log[..k + 1], r.roomTypeID) == SEED[r.roomTypeID].available)
    && (r.status == SOLD_OUT ==>
          && r.roomTypeID in SEED && Booked(log[..k], r.roomTypeID) == SEED[r.roomTypeID].available
          && r.message == SEED[r.roomTypeID].name + NONE_LEFT)
    && (r.status == INVALID_INPUT ==>
          r.message == MISSING_FIELDS || r.message == BAD_PHONE || r.message == UNKNOWN_ROOM)
    && (r.status == CONFIRMED || r.status == SOLD_OUT || r.status == INVALID_INPUT)
  }

  lemma AnswerIsConsistent(s: State, input: Input)
    requires Consistent(s)
    ensures RecordConsistent(After(s, input).log, |s.log|)
  {
    var log := After(s, input).log;
    var id := Cleaned(input).roomTypeID;
    assert log[..|s.log|] == s.log;
    assert log[..|s.log| + 1] == log;
    if id in SEED {
      assert RoomConsistent(s, id);
    }
  }

  lemma RoomStaysConsistent(s: State, input: Input, id: string)
    requires Consistent(s) && id in SEED
    ensures RoomConsistent(After(s, input), id)
  {
    assert After(s, input).log[..|s.log|] == s.log;
    assert RoomConsistent(s, id);
  }

  lemma RequestKeepsConsistent(s: State, input: Input)
    requires Consistent(s)
    ensures Consistent(After(s, input))
  {
    var t := After(s, input);
    forall id | id in SEED ensures RoomConsistent(t, id) {
      RoomStaysConsistent(s, input, id);
    }
    forall k | 0 <= k < |t.log| ensures RecordConsistent(t.log, k) {
      if k < |s.log| {
        RecordStaysConsistent(s.log, Answer(s, input), k);
      } else {
        AnswerIsConsistent(s, input);
      }
    }
  }

  lemma RecordStaysConsistent(log: seq<Reservation>, r: Reservation, k: nat)
    requires k < |log| && RecordConsistent(log, k)
    ensures RecordConsistent(log + [r], k)
  {
    var more := log + [r];
    assert more[k] == log[k] && more[..k] == log[..k] && more[..k + 1] == log[..k + 1];
  }

  /** Inventory conservation: after any history of requests, whatever they ask, every room's available
      count and its confirmed records add up to its seed. */
  lemma {:induction false} EveryHistoryIsConsistent(h: seq<Input>)
    ensures Consistent(Run(h)) && |Run(h).log| == |h|
  {
    if h != [] {
      EveryHistoryIsConsistent(h[..|h| - 1]);
      RequestKeepsConsistent(Run(h[..|h| - 1]), h[|h| - 1]);
    }
  }

  lemma RecordIsNumbered(h: seq<Input>, k: nat)
    requires k < |h|
    ensures |Run(h).log| == |h| && Run(h).log[k].id == ReservationID(k + 1)
  {
    EveryHistoryIsConsistent(h);
    assert RecordConsistent(Run(h).log, k);
  }

  lemma ReservationIDsAreDistinct(h: seq<Input>, i: nat, j: nat)
    requires i < j < |h|
    ensures |Run(h).log| == |h| && Run(h).log[i].id != Run(h).log[j].id
  {
    RecordIsNumbered(h, i);
    RecordIsNumbered(h, j);
    ReservationIDsDiffer(i + 1, j + 1);
  }

  /** How many requests of a history only a lack of rooms of this kind could turn down. */
  function Asked(h: seq<Input>, id: string): nat {
    if h == [] then 0
    else
      var c := Cleaned(h[|h| - 1]);
      Asked(h[..|h| - 1], id) + if WellFormed(c) && c.roomTypeID == id then 1 else 0
  }

  /** Rooms go to the first who ask: exactly as many are booked as were asked for, up to the seed. */
  lemma {:induction false} FirstComeFirstServed(h: seq<Input>, id: string)
    requires id in SEED
    ensures Booked(Run(h).log, id)
      == if Asked(h, id) <= SEED[id].available then Asked(h, id) else SEED[id].available
  {
    if h != [] {
      var before, input := h[..|h| - 1], h[|h| - 1];
      FirstComeFirstServed(before, id);
      EveryHistoryIsConsistent(before);
      BookedByRequest(Run(before), input, id);
    }
  }

  /** A request books a room exactly if it asks for it properly and one is left. */
  lemma BookedByRequest(s: State, input: Input, id: string)
    requires Consistent(s) && id in SEED
    ensures var c := Cleaned(input);
      Booked(After(s, input).log, id)
      == Booked(s.log, id)
         + if WellFormed(c) && c.roomTypeID == id && Booked(s.log, id) < SEED[id].available then 1 else 0
  {
    assert RoomConsistent(s, id);
    assert After(s, input).log[..|s.log|] == s.log;
  }

  lemma {:induction false} BookedGrows(log: seq<Reservation>, i: nat, j: nat, id: string)
    requires i <= j <= |log|
    ensures Booked(log[..i], id) <= Booked(log[..j], id)
    decreases j
  {
    if i < j {
      BookedGrows(log, i, j - 1, id);
      assert log[..j][..j - 1] == log[..j - 1];
    }
  }

  /** What a record says, given how many proper requests for its room came before. */
  predicate Tells(r: Reservation, asked: nat) {
    if r.roomTypeID == "" || r.guestName == "" || r.phoneNumber == "" then
      Refused(r, "房型、入住人姓名和手机号不能为空")
    else if !DemoPhone(r.phoneNumber) then Refused(r, "手机号需为3到20位数字")
    else
      match r.roomTypeID
      case "deluxe-king" => TellsOf(r, asked, "豪华大床房", 3)
      case "garden-twin" => TellsOf(r, asked, "花园双床房", 2)
      case "family-suite" => TellsOf(r, asked, "家庭套房", 1)
      case _ => Refused(r, "未找到对应房型")
  }

  predicate Refused(r: Reservation, message: string) {
    r.status == "invalid_input" && r.message == message && r.roomTypeName == "" && r.availableAfter == 0
  }

  predicate TellsOf(r: Reservation, asked: nat, name: string, rooms: nat) {
    && r.roomTypeName == name
    && if asked >= rooms then r.status == "sold_out" && r.message == name + "当前已售罄" && r.availableAfter == 0
       else
         && r.status == "confirmed" && r.message == name + "已为" + r.guestName + "预订成功"
         && r.availableAfter == rooms - asked - 1
  }

  /** Every record, from the requests alone: it carries what its own request asked for, and whether it is
      refused, sold out or confirmed depends on that and on how many proper requests for the same room came
      before. */
  lemma RecordTells(h: seq<Input>, k: nat)
    requires k < |h|
    ensures |Run(h).log| == |h|
    ensures var r := Run(h).log[k]; Carries(r, k + 1, h[k]) && Tells(r, Asked(h[..k], r.roomTypeID))
  {
    LogAt(h, k);
    AnswerTells(h[..k], h[k]);
  }

  /** The record has the number and the particulars of its request. */
  predicate Carries(r: Reservation, number: nat, input: Input) {
    && r.id == ReservationID(number)
    && r.roomTypeID == TrimSpace(input.roomTypeID) && r.guestName == TrimSpace(input.guestName)
    && r.phoneNumber == NormalizedPhone(input.phoneNumber)
  }

  lemma AnswerCarries(s: State, input: Input)
    ensures Carries(Answer(s, input), s.nextID, input)
  {
  }

  lemma AnswerTells(h: seq<Input>, input: Input)
    ensures Run(h).nextID == |h| + 1
    ensures var r := Answer(Run(h), input); Carries(r, |h| + 1, input) && Tells(r, Asked(h, r.roomTypeID))
  {
    EveryHistoryIsConsistent(h);
    var s, c := Run(h), Cleaned(input);
    AnswerCarries(s, input);
    if WellFormed(c) {
      RoomsLeft(h, c.roomTypeID);
      ProperAnswerTells(s, input, Asked(h, c.roomTypeID));
    } else {
      RefusalTells(s, input, Asked(h, c.roomTypeID));
    }
  }

  lemma RoomsLeft(h: seq<Input>, id: string)
    requires id in SEED
    ensures var s, seed := Run(h), SEED[id];
      && id in s.rooms && s.rooms[id].name == seed.name
      && s.rooms[id].available == if Asked(h, id) <= seed.available then seed.available - Asked(h, id) else 0
  {
    EveryHistoryIsConsistent(h);
    FirstComeFirstServed(h, id);
    assert RoomConsistent(Run(h), id);
  }

  lemma RefusalTells(s: State, input: Input, asked: nat)
    requires s.rooms.Keys == SEED.Keys && !WellFormed(Cleaned(input))
    ensures Tells(Answer(s, input), asked)
  {
  }

  lemma ProperAnswerTells(s: State, input: Input, asked: nat)
    requires var c := Cleaned(input);
      && WellFormed(c) && c.roomTypeID in s.rooms && s.rooms[c.roomTypeID].name == SEED[c.roomTypeID].name
      && s.rooms[c.roomTypeID].available
         == if asked <= SEED[c.roomTypeID].available then SEED[c.roomTypeID].available - asked else 0
    ensures Tells(Answer(s, input), asked)
  {
    var id := Cleaned(input).roomTypeID;
    assert id == "deluxe-king" || id == "garden-twin" || id == "family-suite";
  }

  function AnswerTo(h: seq<Input>, k: nat): Reservation
    requires k < |h|
  {
    Answer(Run(h[..k]), h[k])
  }

  /** Record k answers request k. */
  lemma {:induction false} LogAt(h: seq<Input>, k: nat)
    requires k < |h|
    ensures |Run(h).log| == |h| && Run(h).log[k] == AnswerTo(h, k)
  {
    LogGrows(h);
    if k < |h| - 1 {
      LogAt(h[..|h| - 1], k);
      SameAnswer(h, k);
    }
  }

  lemma SameAnswer(h: seq<Input>, k: nat)
    requires k < |h| - 1
    ensures AnswerTo(h[..|h| - 1], k) == AnswerTo(h, k)
  {
    assert h[..|h| - 1][..k] == h[..k];
  }

  lemma {:induction false} LogGrows(h: seq<Input>)
    ensures |Run(h).log| == |h|
    ensures h != [] ==>
      Run(h).log == Run(h[..|h| - 1]).log + [AnswerTo(h, |h| - 1)]
  {
    if h != [] {
      LogGrows(h[..|h| - 1]);
    }
  }

  /** Once a room has been reported sold out, no later record confirms it. */
  lemma SoldOutStaysSoldOut(h: seq<Input>, i: nat, j: nat)
    requires i < j < |h|
    ensures |Run(h).log| == |h|
    ensures var log := Run(h).log; log[i].status == SOLD_OUT ==> !Books(log[j], log[i].roomTypeID)
  {
    EveryHistoryIsConsistent(h);
    var log := Run(h).log;
    if log[i].status == SOLD_OUT {
      NoneAfterSoldOut(log, i, j);
    }
  }

  lemma NoneAfterSoldOut(log: seq<Reservation>, i: nat, j: nat)
    requires i < j < |log| && RecordConsistent(log, i) && RecordConsistent(log, j) && log[i].status == SOLD_OUT
    ensures !Books(log[j], log[i].roomTypeID)
  {
    BookedGrows(log, i, j, log[i].roomTypeID);
    assert log[..j + 1][..j] == log[..j];
  }
}
