/** The tool-call loop (internal/adapters/openaicompat/llm.go) with the hotel's tools and its booking
    finalizer (internal/app/bot/hotel_tools.go). The language model, the transport and the other
    sessions that use the same store do as they please. */
module ToolLoop {
  import opened Text
  import opened HotelText
  import opened HotelStore
  import opened Outcome

  const MAX_TOOL_ITERATIONS := 6

  datatype Said = Said(role: string, text: string)
  datatype Request = Request(text: string, history: seq<Said>, systemHint: string)

  datatype Tool = ListRoomTypes | CreateReservation | EndCall

  /** A call of a tool, and the requests other sessions made of the store just before it. */
  datatype ToolCall = ToolCall(id: string, name: string, arguments: string, meanwhile: seq<Input>)

  datatype ChatMessage = ChatMessage(role: string, content: string, toolCalls: seq<ToolCall>, toolCallID: string)

  datatype ToolCallResult = ToolCallResult(name: string, content: string)

  /** What comes of one request to the language model. */
  datatype Reply = Failed(message: string) | NoChoices | Replied(content: string, calls: seq<ToolCall>)

  /** What a tool answers, before it is marshalled. */
  datatype Value = Rooms(rooms: map<string, Room>) | Record(reservation: Reservation) | Scheduled(reason: string)
                 | Error(error: string)

  const ZERO := Reservation("", "", "", "", "", "", "", 0)

  /** encoding/json. */
  datatype Json = Json(marshal: Value -> string, reservation: string -> Result<Reservation>,
                       input: string -> Result<Input>, reason: string -> Result<string>)

  /** A marshalled reservation is read back, and an error object has none of its fields. */
  ghost predicate Faithful(json: Json) {
    && (forall r :: json.reservation(json.marshal(Record(r))) == Ok(r))
    && (forall m :: json.reservation(json.marshal(Error(m))) == Ok(ZERO))
  }

  // Which tools are offered.

  function Name(tool: Tool): string {
    match tool
    case ListRoomTypes => "list_room_types"
    case CreateReservation => "create_reservation"
    case EndCall => "end_call"
  }

  predicate NeedsReservation(req: Request) {
    if HasPhoneNumber(req.text) then HasBookingIntent(req.text)
    else if HasBookingIntent(req.text) && HasGuestDetails(req.text) then true
    else
      HasGuestDetails(req.text) &&
      exists i :: 0 <= i < |req.history| && req.history[i].role == "user" && HasBookingIntent(req.history[i].text)
  }

  /** A booking is offered for a text with a mobile number that wants to book, and for one without that names the
      guest's details if it, or anything the guest said before, wants to book. */
  lemma ReservationIsOffered(req: Request)
    ensures ShouldUse(CreateReservation, req) <==>
      if HasPhoneNumber(req.text) then HasBookingIntent(req.text)
      else
        HasGuestDetails(req.text) &&
        (|| HasBookingIntent(req.text)
         || exists said :: said in req.history && said.role == "user" && HasBookingIntent(said.text))
    ensures ShouldUse(ListRoomTypes, req) <==> NeedsInventory(req.text)
  {
  }

  predicate ShouldUse(tool: Tool, req: Request) {
    match tool
    case ListRoomTypes => NeedsInventory(req.text)
    case CreateReservation => NeedsReservation(req)
    case EndCall => true
  }

  const HOTEL_TOOLS := [ListRoomTypes, CreateReservation, EndCall]

  function Offered(tools: seq<Tool>, req: Request): seq<Tool> {
    if tools == [] then []
    else
      var last := tools[|tools| - 1];
      Offered(tools[..|tools| - 1], req) + if ShouldUse(last, req) then [last] else []
  }

  method ToolsForRequest(all: seq<Tool>, req: Request) returns (tools: seq<Tool>)
    ensures tools == Offered(all, req)
  {
    tools := [];
    for i := 0 to |all|
      invariant tools == Offered(all[..i], req)
    {
      assert all[..i + 1][..i] == all[..i];
      if ShouldUse(all[i], req) {
        tools := tools + [all[i]];
      }
    }
    assert all[..|all|] == all;
  }

  lemma {:induction false} OfferedExactly(tools: seq<Tool>, req: Request, tool: Tool)
    ensures tool in Offered(tools, req) <==> tool in tools && ShouldUse(tool, req)
  {
    if tools != [] {
      OfferedExactly(tools[..|tools| - 1], req, tool);
      assert tools == tools[..|tools| - 1] + [tools[|tools| - 1]];
    }
  }

  /** Some tool is offered with every request, so that the loop below is always taken. */
  lemma EndCallIsAlwaysOffered(req: Request)
    ensures EndCall in Offered(HOTEL_TOOLS, req)
  {
    OfferedExactly(HOTEL_TOOLS, req, EndCall);
    assert HOTEL_TOOLS[2] == EndCall;
  }

  // Calling one tool.

  function AfterAll(s: State, inputs: seq<Input>): State {
    if inputs == [] then s else After(AfterAll(s, inputs[..|inputs| - 1]), inputs[|inputs| - 1])
  }

  function NormalizedReason(reason: string): string {
    if TrimSpace(reason) == "reservation_confirmed" || TrimSpace(reason) == "user_declined" then TrimSpace(reason)
    else "bot_farewell"
  }

  predicate Available(tools: seq<Tool>, name: string) {
    exists i :: 0 <= i < |tools| && Name(tools[i]) == name
  }

  function Booking(json: Json, s: State, arguments: string): (State, Value) {
    match if arguments == "" then Ok(Input("", "", "")) else json.input(arguments)
    case Err(m) => (s, Error(m))
    case Ok(input) => (After(s, input), Record(Answer(s, input)))
  }

  function Ending(json: Json, arguments: string): Value {
    match if arguments == "" then Ok("") else json.reason(arguments)
    case Err(m) => Error(m)
    case Ok(reason) => Scheduled(NormalizedReason(reason))
  }

  /** The store and the answer after a call, and after what other sessions did just before it. */
  function Handled(json: Json, tools: seq<Tool>, before: State, call: ToolCall): (State, Value) {
    var s := AfterAll(before, call.meanwhile);
    if !Available(tools, call.name) then
      (s, Error("tool \"" + call.name + "\" is not available"))
    else if call.name == Name(CreateReservation) then Booking(json, s, call.arguments)
    else (s, if call.name == Name(ListRoomTypes) then Rooms(s.rooms) else Ending(json, call.arguments))
  }

  // The answer to a call when all tools are offered, by the name and the arguments of the call.

  lemma AvailableExactly(name: string)
    ensures Available(HOTEL_TOOLS, name) <==> name in ["list_room_types", "create_reservation", "end_call"]
  {
    assert Name(HOTEL_TOOLS[0]) == "list_room_types" && Name(HOTEL_TOOLS[1]) == "create_reservation";
    assert Name(HOTEL_TOOLS[2]) == "end_call";
  }

  /** Rooms are listed as they are when the tool is called, and an unknown tool is an error. */
  lemma OtherCallAnswers(json: Json, before: State, call: ToolCall)
    requires call.name != "create_reservation" && call.name != "end_call"
    ensures var (after, value) := Handled(json, HOTEL_TOOLS, before, call);
      && after == AfterAll(before, call.meanwhile)
      && value == if call.name == "list_room_types" then Rooms(after.rooms)
                  else Error("tool \"" + call.name + "\" is not available")
  {
    AvailableExactly(call.name);
  }

  /** A booking adds one record, which carries what the arguments ask for, and is answered by it; arguments that
      do not decode are an error and book nothing. */
  lemma BookingCallAnswers(json: Json, before: State, call: ToolCall)
    requires call.name == "create_reservation"
    ensures var s, (after, value) := AfterAll(before, call.meanwhile), Handled(json, HOTEL_TOOLS, before, call);
      if call.arguments != "" && json.input(call.arguments).Err? then
        after == s && value == Error(json.input(call.arguments).message)
      else
        && value.Record? && after.log == s.log + [value.reservation]
        && Carries(value.reservation, s.nextID,
                   if call.arguments == "" then Input("", "", "") else json.input(call.arguments).value)
  {
    AvailableExactly(call.name);
    var s := AfterAll(before, call.meanwhile);
    if call.arguments == "" {
      AnswerCarries(s, Input("", "", ""));
    } else if json.input(call.arguments).Ok? {
      AnswerCarries(s, json.input(call.arguments).value);
    }
  }

  /** The end of the call is scheduled for one of three reasons; any other, and none, counts as the last. */
  lemma EndingCallAnswers(json: Json, before: State, call: ToolCall)
    requires call.name == "end_call"
    ensures var (after, value) := Handled(json, HOTEL_TOOLS, before, call);
      && after == AfterAll(before, call.meanwhile)
      && if call.arguments == "" then value == Scheduled("bot_farewell")
         else
           match json.reason(call.arguments)
           case Err(m) => value == Error(m)
           case Ok(reason) =>
             match TrimSpace(reason)
             case "reservation_confirmed" => value == Scheduled("reservation_confirmed")
             case "user_declined" => value == Scheduled("user_declined")
             case _ => value == Scheduled("bot_farewell")
  {
    AvailableExactly(call.name);
  }

  /** What other sessions ask for meanwhile is served in the order in which they ask. */
  lemma MeanwhileInOrder(s: State, inputs: seq<Input>, input: Input)
    ensures AfterAll(s, []) == s
    ensures AfterAll(s, inputs + [input]) == After(AfterAll(s, inputs), input)
  {
    assert (inputs + [input])[..|inputs|] == inputs;
  }

  method FindTool(tools: seq<Tool>, name: string) returns (tool: Option<Tool>)
    ensures tool.Some? <==> Available(tools, name)
    ensures tool.Some? ==> Name(tool.value) == name
  {
    for i := 0 to |tools|
      invariant forall k | 0 <= k < i :: Name(tools[k]) != name
    {
      if Name(tools[i]) == name {
        return Some(tools[i]);
      }
    }
    return None;
  }

  method OthersRequest(store: Store, inputs: seq<Input>)
    modifies store
    ensures store.Abs() == AfterAll(old(store.Abs()), inputs)
  {
    for i := 0 to |inputs|
      invariant store.Abs() == AfterAll(old(store.Abs()), inputs[..i])
    {
      assert inputs[..i + 1][..i] == inputs[..i];
      var _ := store.CreateReservation(inputs[i]);
    }
    assert inputs[..|inputs|] == inputs;
  }

  method CallTool(json: Json, store: Store, tools: seq<Tool>, call: ToolCall) returns (content: string)
    modifies store
    ensures store.Abs() == Handled(json, tools, old(store.Abs()), call).0
    ensures content == json.marshal(Handled(json, tools, old(store.Abs()), call).1)
  {
    OthersRequest(store, call.meanwhile);
    var tool := FindTool(tools, call.name);
    if tool.None? {
      return json.marshal(Error("tool \"" + call.name + "\" is not available"));
    }
    match tool.value {
      case ListRoomTypes =>
        return json.marshal(Rooms(store.rooms));
      case CreateReservation =>
        var input := Input("", "", "");
        if |call.arguments| > 0 {
          var decoded := json.input(call.arguments);
          if decoded.Err? {
            return json.marshal(Error(decoded.message));
          }
          input := decoded.value;
        }
        var reservation := store.CreateReservation(input);
        return json.marshal(Record(reservation));
      case EndCall =>
        var reason := "";
        if |call.arguments| > 0 {
          var decoded := json.reason(call.arguments);
          if decoded.Err? {
            return json.marshal(Error(decoded.message));
          }
          reason := decoded.value;
        }
        return json.marshal(Scheduled(NormalizedReason(reason)));
    }
  }

  // The finalizer.

  /** The last create_reservation result, if it decodes. */
  function LatestReservation(json: Json, results: seq<ToolCallResult>): Option<Reservation> {
    if results == [] then None
    else
      var last := results[|results| - 1];
      if last.name != Name(CreateReservation) then LatestReservation(json, results[..|results| - 1])
      else
        match json.reservation(last.content)
        case Err(_) => None
        case Ok(r) => Some(r)
  }

  /** Result k is of create_reservation, and none after it is. */
  predicate IsLastBooking(results: seq<ToolCallResult>, k: nat) {
    && k < |results| && results[k].name == "create_reservation"
    && forall j | k < j < |results| :: results[j].name != "create_reservation"
  }

  function AsOption<T>(r: Result<T>): Option<T> {
    match r
    case Ok(v) => Some(v)
    case Err(_) => None
  }

  /** The latest reservation is what the last result of create_reservation decodes to, and none if there is no
      such result or it does not decode. */
  lemma {:induction false} LatestExactly(json: Json, results: seq<ToolCallResult>)
    ensures forall k: nat | IsLastBooking(results, k) ::
      LatestReservation(json, results) == AsOption(json.reservation(results[k].content))
    ensures (forall k: nat :: !IsLastBooking(results, k)) ==> LatestReservation(json, results) == None
  {
    if results != [] {
      var n := |results| - 1;
      if results[n].name != "create_reservation" {
        LatestExactly(json, results[..n]);
        forall k: nat ensures IsLastBooking(results, k) <==> IsLastBooking(results[..n], k) {
          LastBookingBefore(results, k);
        }
      } else {
        assert IsLastBooking(results, n);
      }
    }
  }

  lemma LastBookingBefore(results: seq<ToolCallResult>, k: nat)
    requires results != [] && results[|results| - 1].name != "create_reservation"
    ensures IsLastBooking(results, k) <==> IsLastBooking(results[..|results| - 1], k)
  {
    var before := results[..|results| - 1];
    assert forall j | 0 <= j < |before| :: before[j] == results[j];
    if IsLastBooking(before, k) {
      assert forall j | k < j < |results| :: j < |before| ==> before[j].name != "create_reservation";
    }
  }

  method LatestReservationToolResult(json: Json, results: seq<ToolCallResult>) returns (r: Option<Reservation>)
    ensures r == LatestReservation(json, results)
    ensures forall k: nat | IsLastBooking(results, k) :: r == AsOption(json.reservation(results[k].content))
    ensures (forall k: nat :: !IsLastBooking(results, k)) ==> r == None
  {
    LatestExactly(json, results);
    var idx := |results| - 1;
    assert results[..idx + 1] == results;
    while idx >= 0
      invariant -1 <= idx < |results|
      invariant LatestReservation(json, results[..idx + 1]) == LatestReservation(json, results)
    {
      assert results[..idx + 1][..idx] == results[..idx];
      if results[idx].name != Name(CreateReservation) {
        idx := idx - 1;
        continue;
      }
      var decoded := json.reservation(results[idx].content);
      if decoded.Err? {
        return None;
      }
      return Some(decoded.value);
    }
    return None;
  }

  predicate Confirms(r: Option<Reservation>) {
    r.Some? && r.value.status == CONFIRMED
  }

  function Finalized(content: string, latest: Option<Reservation>): string {
    if !LooksConfirmed(content) || Confirms(latest) then content
    else if latest.Some? && latest.value.message != "" then
      "还不能确认预订：" + latest.value.message + "。请补充有效信息。"
    else "我还没完成预订，请提供有效手机号或数字号码，我再帮您确认。"
  }

  /** A refusal the store or the tool loop can produce. */
  predicate Refuses(r: Reservation) {
    || r == ZERO
    || r.message == MISSING_FIELDS || r.message == BAD_PHONE || r.message == UNKNOWN_ROOM
    || (r.roomTypeID in SEED && r.message == SEED[r.roomTypeID].name + NONE_LEFT)
  }

  lemma RoomNameIsGuarded(id: string)
    requires id in SEED
    ensures Guarded(SEED[id].name + NONE_LEFT)
  {
    var name := SEED[id].name;
    assert name == "豪华大床房" || name == "花园双床房" || name == "家庭套房";
    GuardedConcat(name, NONE_LEFT);
  }

  lemma RefusalIsGuarded(r: Reservation)
    requires Refuses(r)
    ensures Guarded(r.message)
  {
    if r == ZERO || r.message == MISSING_FIELDS || r.message == BAD_PHONE || r.message == UNKNOWN_ROOM {
      assert Guarded(MISSING_FIELDS) && Guarded(BAD_PHONE) && Guarded(UNKNOWN_ROOM);
    } else {
      RoomNameIsGuarded(r.roomTypeID);
    }
  }

  lemma RefusalsEndWell(r: Reservation)
    requires Refuses(r)
    ensures r.message != "" ==> r.message[|r.message| - 1] != '已' && r.message[|r.message| - 1] != '订'
  {
  }

  /** The text that replaces a false confirmation never looks like a confirmation itself. */
  lemma ReplacementDoesNotLookConfirmed(content: string, latest: Option<Reservation>)
    requires LooksConfirmed(content) && !Confirms(latest)
    requires latest.Some? ==> Refuses(latest.value)
    ensures !LooksConfirmed(Finalized(content, latest))
  {
    if latest.Some? && latest.value.message != "" {
      var r := latest.value;
      RefusalIsGuarded(r);
      RefusalsEndWell(r);
      assert Guarded("还不能确认预订：");
      assert Guarded("。请补充有效信息。");
      GuardedConcat("还不能确认预订：", r.message);
      GuardedConcat("还不能确认预订：" + r.message, "。请补充有效信息。");
    } else {
      assert Guarded("我还没完成预订，请提供有效手机号或数字号码，我再帮您确认。");
    }
    GuardedDoesNotLookConfirmed(Finalized(content, latest));
  }

  /** What the model says is left alone exactly if it does not look like a confirmation or the latest
      reservation is one: a booking made in an earlier turn does not count. */
  lemma LeftAloneExactly(content: string, latest: Option<Reservation>)
    requires latest.Some? && !Confirms(latest) ==> Refuses(latest.value)
    ensures Finalized(content, latest) == content <==> !LooksConfirmed(content) || Confirms(latest)
  {
    if LooksConfirmed(content) && !Confirms(latest) {
      ReplacementDoesNotLookConfirmed(content, latest);
    }
  }

  // The loop.

  datatype Progress = Progress(store: State, messages: seq<ChatMessage>, results: seq<ToolCallResult>)

  function Called(json: Json, tools: seq<Tool>, p: Progress, call: ToolCall): Progress {
    var (s, value) := Handled(json, tools, p.store, call);
    Progress(s, p.messages + [ChatMessage("tool", json.marshal(value), [], call.id)],
             p.results + [ToolCallResult(call.name, json.marshal(value))])
  }

  function CalledAll(json: Json, tools: seq<Tool>, p: Progress, calls: seq<ToolCall>): Progress {
    if calls == [] then p
    else Called(json, tools, CalledAll(json, tools, p, calls[..|calls| - 1]), calls[|calls| - 1])
  }

  function Round(json: Json, tools: seq<Tool>, p: Progress, content: string, calls: seq<ToolCall>): Progress {
    CalledAll(json, tools, p.(messages := p.messages + [ChatMessage("assistant", content, calls, "")]), calls)
  }

  /** The end of a completion that has reached round i; `replies` is what would come of each of the
      requests it may make. */
  function Completed(json: Json, tools: seq<Tool>, replies: seq<Reply>, p: Progress, i: nat)
    : (Progress, Result<string>)
    requires i <= |replies|
    decreases |replies| - i
  {
    if i == |replies| then (p, Err("exceeded max tool iterations"))
    else
      match replies[i]
      case Failed(m) => (p, Err(m))
      case NoChoices => (p, Err("no choices"))
      case Replied(content, calls) =>
        if calls == [] then (p, Ok(Finalized(content, LatestReservation(json, p.results))))
        else Completed(json, tools, replies, Round(json, tools, p, content, calls), i + 1)
  }

  method CallTools(json: Json, store: Store, tools: seq<Tool>, calls: seq<ToolCall>,
                   messages: seq<ChatMessage>, results: seq<ToolCallResult>)
    returns (moreMessages: seq<ChatMessage>, moreResults: seq<ToolCallResult>)
    modifies store
    ensures Progress(store.Abs(), moreMessages, moreResults)
         == CalledAll(json, tools, Progress(old(store.Abs()), messages, results), calls)
  {
    moreMessages, moreResults := messages, results;
    for j := 0 to |calls|
      invariant Progress(store.Abs(), moreMessages, moreResults)
             == CalledAll(json, tools, Progress(old(store.Abs()), messages, results), calls[..j])
    {
      assert calls[..j + 1][..j] == calls[..j];
      var content := CallTool(json, store, tools, calls[j]);
      moreResults := moreResults + [ToolCallResult(calls[j].name, content)];
      moreMessages := moreMessages + [ChatMessage("tool", content, [], calls[j].id)];
    }
    assert calls[..|calls|] == calls;
  }

  /** The result does not decode to a reservation that is confirmed or tells why it is not. */
  predicate SaysNothing(json: Json, result: ToolCallResult) {
    match json.reservation(result.content)
    case Err(_) => true
    case Ok(r) => r.status != "confirmed" && r.message == ""
  }

  method FinalizeToolContent(json: Json, content: string, results: seq<ToolCallResult>) returns (text: string)
    ensures text == Finalized(content, LatestReservation(json, results))
    ensures !LooksConfirmed(content) ==> text == content
    ensures forall k: nat | IsLastBooking(results, k) && json.reservation(results[k].content).Ok? ::
      var r := json.reservation(results[k].content).value;
      && (r.status == "confirmed" ==> text == content)
      && (LooksConfirmed(content) && r.status != "confirmed" && r.message != "" ==>
            text == "还不能确认预订：" + r.message + "。请补充有效信息。")
    ensures LooksConfirmed(content) && (forall k: nat | IsLastBooking(results, k) :: SaysNothing(json, results[k])) ==>
      text == "我还没完成预订，请提供有效手机号或数字号码，我再帮您确认。"
  {
    LatestExactly(json, results);
    if !LooksConfirmed(content) {
      return content;
    }
    var latest := LatestReservationToolResult(json, results);
    if latest.Some? && latest.value.status == CONFIRMED {
      return content;
    }
    if latest.Some? && latest.value.message != "" {
      return "还不能确认预订：" + latest.value.message + "。请补充有效信息。";
    }
    return "我还没完成预订，请提供有效手机号或数字号码，我再帮您确认。";
  }

  method CompleteWithTools(json: Json, store: Store, start: seq<ChatMessage>, tools: seq<Tool>, replies: seq<Reply>)
    returns (text: Result<string>, messages: seq<ChatMessage>, toolResults: seq<ToolCallResult>)
    requires |replies| == 6
    modifies store
    ensures (Progress(store.Abs(), messages, toolResults), text)
         == Completed(json, tools, replies, Progress(old(store.Abs()), start, []), 0)
  {
    messages, toolResults := start, [];
    ghost var first := Progress(old(store.Abs()), start, []);
    for i := 0 to MAX_TOOL_ITERATIONS
      invariant Completed(json, tools, replies, Progress(store.Abs(), messages, toolResults), i)
             == Completed(json, tools, replies, first, 0)
    {
      var reply := replies[i];
      if reply.Failed? {
        return Err(reply.message), messages, toolResults;
      }
      if reply.NoChoices? {
        return Err("no choices"), messages, toolResults;
      }
      if |reply.calls| == 0 {
        var content := FinalizeToolContent(json, reply.content, toolResults);
        return Ok(content), messages, toolResults;
      }
      messages := messages + [ChatMessage("assistant", reply.content, reply.calls, "")];
      messages, toolResults := CallTools(json, store, tools, reply.calls, messages, toolResults);
    }
    text := Err("exceeded max tool iterations");
  }

  /** The first reply that calls no tool ends a completion: what it says is finalized, and a failure or an answer
      without choices is an error, as it is if all replies call tools. */
  lemma {:induction false} CompletionEnds(json: Json, tools: seq<Tool>, replies: seq<Reply>, p: Progress, i: nat,
                                          n: nat)
    requires i <= n <= |replies|
    requires forall j | i <= j < n :: replies[j].Replied? && replies[j].calls != []
    requires n < |replies| ==> !(replies[n].Replied? && replies[n].calls != [])
    ensures var (end, text) := Completed(json, tools, replies, p, i);
      if n == |replies| then text == Err("exceeded max tool iterations")
      else
        match replies[n]
        case Failed(m) => text == Err(m)
        case NoChoices => text == Err("no choices")
        case Replied(content, _) => text == Ok(Finalized(content, LatestReservation(json, end.results)))
    decreases n - i
  {
    if i < n {
      var Replied(content, calls) := replies[i];
      CompletionEnds(json, tools, replies, Round(json, tools, p, content, calls), i + 1, n);
    }
  }

  /** Every call is answered: one tool message each, in order and under its id, with the content that
      the finalizer will see under the called name. */
  lemma {:induction false} EveryCallIsAnswered(json: Json, tools: seq<Tool>, p: Progress, calls: seq<ToolCall>)
    ensures Answers(p, CalledAll(json, tools, p, calls), calls)
  {
    if calls != [] {
      var before, call := calls[..|calls| - 1], calls[|calls| - 1];
      var mid := CalledAll(json, tools, p, before);
      EveryCallIsAnswered(json, tools, p, before);
      CallIsAnswered(json, tools, mid, call);
      AnswersOneMore(p, mid, Called(json, tools, mid, call), before, call);
      assert calls == before + [call];
    }
  }

  /** From p to q one message and one result were added for each call. */
  ghost predicate Answers(p: Progress, q: Progress, calls: seq<ToolCall>) {
    && p.messages <= q.messages && |q.messages| == |p.messages| + |calls|
    && p.results <= q.results && |q.results| == |p.results| + |calls|
    && forall k | 0 <= k < |calls| :: AnswersCall(q.messages[|p.messages| + k], q.results[|p.results| + k], calls[k])
  }

  lemma AnswersOneMore(p: Progress, mid: Progress, q: Progress, calls: seq<ToolCall>, call: ToolCall)
    requires Answers(p, mid, calls) && Answers(mid, q, [call])
    ensures Answers(p, q, calls + [call])
  {
    forall k | 0 <= k < |calls + [call]|
      ensures AnswersCall(q.messages[|p.messages| + k], q.results[|p.results| + k], (calls + [call])[k])
    {
      if k < |calls| {
        assert AnswersCall(mid.messages[|p.messages| + k], mid.results[|p.results| + k], calls[k]);
      } else {
        assert AnswersCall(q.messages[|mid.messages| + 0], q.results[|mid.results| + 0], [call][0]);
      }
    }
  }

  /** A round is told to the model as what it said with all its calls, and then their answers. */
  lemma RoundTells(json: Json, tools: seq<Tool>, p: Progress, content: string, calls: seq<ToolCall>)
    ensures var q := Round(json, tools, p, content, calls);
      && p.messages + [ChatMessage("assistant", content, calls, "")] <= q.messages
      && |q.messages| == |p.messages| + 1 + |calls|
  {
    var said := p.messages + [ChatMessage("assistant", content, calls, "")];
    EveryCallIsAnswered(json, tools, p.(messages := said), calls);
  }

  /** The calls are made in order, each on the store that the one before has left, and answered from it. */
  lemma CallsInOrder(json: Json, tools: seq<Tool>, p: Progress, calls: seq<ToolCall>, call: ToolCall)
    ensures var before, after := CalledAll(json, tools, p, calls), CalledAll(json, tools, p, calls + [call]);
      var (store, value) := Handled(json, tools, before.store, call);
      && after.store == store
      && after.results == before.results + [ToolCallResult(call.name, json.marshal(value))]
  {
    assert (calls + [call])[..|calls|] == calls;
  }

  lemma CallIsAnswered(json: Json, tools: seq<Tool>, p: Progress, call: ToolCall)
    ensures Answers(p, Called(json, tools, p, call), [call])
  {
  }

  predicate AnswersCall(m: ChatMessage, r: ToolCallResult, call: ToolCall) {
    m.role == "tool" && m.toolCallID == call.id && m.content == r.content && r.name == call.name
  }

  // A whole completion.

  function JoinedSystemPrompt(base: string, hint: string): string {
    if TrimSpace(hint) == "" then TrimSpace(base)
    else if TrimSpace(base) == "" then TrimSpace(hint)
    else TrimSpace(base) + "\n\n" + TrimSpace(hint)
  }

  function Retold(role: string, text: string): seq<ChatMessage> {
    if text != "" && (role == "user" || role == "assistant") then [ChatMessage(role, text, [], "")] else []
  }

  function HistoryMessages(history: seq<Said>): seq<ChatMessage> {
    if history == [] then []
    else
      var item := history[|history| - 1];
      HistoryMessages(history[..|history| - 1]) + Retold(TrimSpace(item.role), TrimSpace(item.text))
  }

  lemma HistoryGrows(history: seq<Said>, i: nat)
    requires i < |history|
    ensures HistoryMessages(history[..i + 1])
         == HistoryMessages(history[..i]) + Retold(TrimSpace(history[i].role), TrimSpace(history[i].text))
  {
    assert history[..i + 1][..i] == history[..i];
  }

  function Prompt(systemPrompt: string, req: Request): seq<ChatMessage> {
    [ChatMessage("system", JoinedSystemPrompt(systemPrompt, req.systemHint), [], "")]
    + HistoryMessages(req.history) + [ChatMessage("user", req.text, [], "")]
  }

  /** The model is told the system prompt first, and last what the guest says now. */
  lemma PromptTells(systemPrompt: string, req: Request)
    ensures var p := Prompt(systemPrompt, req);
      && |p| >= 2 && p[0] == ChatMessage("system", p[0].content, [], "")
      && p[|p| - 1] == ChatMessage("user", req.text, [], "")
      && (!Blank(systemPrompt) && !Blank(req.systemHint) ==>
            p[0].content == TrimSpace(systemPrompt) + "\n\n" + TrimSpace(req.systemHint))
      && (Blank(req.systemHint) ==> p[0].content == TrimSpace(systemPrompt))
      && (Blank(systemPrompt) ==> p[0].content == TrimSpace(req.systemHint))
      && p[1..|p| - 1] == HistoryMessages(req.history)
  {
    TrimSpaceKeeps(systemPrompt);
    TrimSpaceKeeps(req.systemHint);
  }

  /** In between it is told what was said before, in that order. */
  lemma HistoryInOrder(before: seq<Said>, said: Said)
    ensures HistoryMessages([]) == []
    ensures HistoryMessages(before + [said])
         == HistoryMessages(before) + Retold(TrimSpace(said.role), TrimSpace(said.text))
  {
    assert (before + [said])[..|before|] == before;
  }

  /** What a guest or the bot said is told trimmed unless it is blank, and nobody else's words are. */
  lemma SaidIsTold(said: Said)
    ensures Retold(TrimSpace(said.role), TrimSpace(said.text)) ==
      if Blank(said.text) then []
      else
        match TrimSpace(said.role)
        case "user" => [ChatMessage("user", TrimSpace(said.text), [], "")]
        case "assistant" => [ChatMessage("assistant", TrimSpace(said.text), [], "")]
        case _ => []
  {
    TrimSpaceKeeps(said.text);
  }

  /** The loop over the history. */
  method TellHistory(history: seq<Said>) returns (messages: seq<ChatMessage>)
    ensures messages == HistoryMessages(history)
  {
    messages := [];
    for i := 0 to |history|
      invariant messages == HistoryMessages(history[..i])
    {
      HistoryGrows(history, i);
      var role, said := TrimSpace(history[i].role), TrimSpace(history[i].text);
      if role == "" || said == "" {
        continue;
      }
      if role != "user" && role != "assistant" {
        continue;
      }
      messages := messages + [ChatMessage(role, said, [], "")];
    }
    assert history[..|history|] == history;
  }

  /** `ready` says whether the credentials are complete. Streaming without tools, where no finalizer
      would see the text, is never reached. */
  method Complete(json: Json, store: Store, ready: bool, systemPrompt: string, req: Request, replies: seq<Reply>)
    returns (text: Result<string>)
    requires |replies| == 6
    modifies store
    ensures if ready then
              var (end, said) := Completed(json, Offered(HOTEL_TOOLS, req), replies,
                                           Progress(old(store.Abs()), Prompt(systemPrompt, req), []), 0);
              store.Abs() == end.store && text == said
            else text.Err? && store.Abs() == old(store.Abs())
  {
    if !ready {
      return Err("credentials are incomplete");
    }
    var messages := [ChatMessage("system", JoinedSystemPrompt(systemPrompt, req.systemHint), [], "")];
    var told := TellHistory(req.history);
    messages := messages + told + [ChatMessage("user", req.text, [], "")];
    var tools := ToolsForRequest(HOTEL_TOOLS, req);
    EndCallIsAlwaysOffered(req);
    assert |tools| > 0;
    var said, _, _ := CompleteWithTools(json, store, messages, tools, replies);
    return said;
  }

  // Booking truthfulness.

  lemma {:induction false} OthersKeepConsistent(s: State, inputs: seq<Input>)
    requires Consistent(s)
    ensures Consistent(AfterAll(s, inputs)) && s.log <= AfterAll(s, inputs).log
  {
    if inputs != [] {
      OthersKeepConsistent(s, inputs[..|inputs| - 1]);
      RequestKeepsConsistent(AfterAll(s, inputs[..|inputs| - 1]), inputs[|inputs| - 1]);
    }
  }

  /** The content of a create_reservation result: an error, or the record stored since `n`. */
  ghost predicate Backed(json: Json, n: nat, log: seq<Reservation>, content: string) {
    || json.reservation(content) == Ok(ZERO)
    || exists k :: n <= k < |log| && json.reservation(content) == Ok(log[k])
  }

  ghost predicate Honest(json: Json, n: nat, p: Progress) {
    && Consistent(p.store)
    && forall i | 0 <= i < |p.results| && p.results[i].name == Name(CreateReservation) ::
         Backed(json, n, p.store.log, p.results[i].content)
  }

  lemma BookingIsBacked(json: Json, n: nat, s: State, arguments: string)
    requires Faithful(json) && n <= |s.log|
    ensures var (t, value) := Booking(json, s, arguments); Backed(json, n, t.log, json.marshal(value))
  {
    var (t, value) := Booking(json, s, arguments);
    if value.Error? {
      assert json.reservation(json.marshal(Error(value.error))) == Ok(ZERO);
    } else {
      var r := value.reservation;
      assert json.reservation(json.marshal(Record(r))) == Ok(r);
      assert t.log[|s.log|] == r;
    }
  }

  lemma BookingKeepsConsistent(json: Json, s: State, arguments: string)
    requires Consistent(s)
    ensures var t := Booking(json, s, arguments).0; Consistent(t) && s.log <= t.log
  {
    var t := Booking(json, s, arguments).0;
    if t != s {
      var input := if arguments == "" then Input("", "", "") else json.input(arguments).value;
      RequestKeepsConsistent(s, input);
    }
  }

  lemma CallKeepsConsistent(json: Json, tools: seq<Tool>, s: State, call: ToolCall)
    requires Consistent(s)
    ensures var t := Handled(json, tools, s, call).0; Consistent(t) && s.log <= t.log
  {
    OthersKeepConsistent(s, call.meanwhile);
    var mid := AfterAll(s, call.meanwhile);
    var t := Handled(json, tools, s, call).0;
    if t != mid {
      assert t == Booking(json, mid, call.arguments).0;
      BookingKeepsConsistent(json, mid, call.arguments);
    }
  }

  lemma CallIsBacked(json: Json, tools: seq<Tool>, s: State, call: ToolCall)
    requires Faithful(json) && Consistent(s) && call.name == Name(CreateReservation)
    ensures var (t, value) := Handled(json, tools, s, call); Backed(json, |s.log|, t.log, json.marshal(value))
  {
    OthersKeepConsistent(s, call.meanwhile);
    if Available(tools, call.name) {
      BookingIsBacked(json, |s.log|, AfterAll(s, call.meanwhile), call.arguments);
    } else {
      var value := Handled(json, tools, s, call).1;
      assert json.reservation(json.marshal(Error(value.error))) == Ok(ZERO);
    }
  }

  lemma BackedStays(json: Json, n: nat, m: nat, log: seq<Reservation>, more: seq<Reservation>, content: string)
    requires Backed(json, m, log, content) && n <= m && log <= more
    ensures Backed(json, n, more, content)
  {
    if json.reservation(content) != Ok(ZERO) {
      var k :| m <= k < |log| && json.reservation(content) == Ok(log[k]);
      assert more[k] == log[k];
    }
  }

  lemma CallStaysHonest(json: Json, tools: seq<Tool>, n: nat, p: Progress, call: ToolCall)
    requires Faithful(json) && Honest(json, n, p) && n <= |p.store.log|
    ensures Honest(json, n, Called(json, tools, p, call))
    ensures p.store.log <= Called(json, tools, p, call).store.log
  {
    CallKeepsConsistent(json, tools, p.store, call);
    var q := Called(json, tools, p, call);
    forall i | 0 <= i < |q.results| && q.results[i].name == Name(CreateReservation)
      ensures Backed(json, n, q.store.log, q.results[i].content)
    {
      if i < |p.results| {
        BackedStays(json, n, n, p.store.log, q.store.log, p.results[i].content);
      } else {
        CallIsBacked(json, tools, p.store, call);
        BackedStays(json, n, |p.store.log|, q.store.log, q.store.log, q.results[i].content);
      }
    }
  }

  lemma {:induction false} CallsStayHonest(json: Json, tools: seq<Tool>, n: nat, p: Progress, calls: seq<ToolCall>)
    requires Faithful(json) && Honest(json, n, p) && n <= |p.store.log|
    ensures Honest(json, n, CalledAll(json, tools, p, calls))
    ensures p.store.log <= CalledAll(json, tools, p, calls).store.log
  {
    if calls != [] {
      var before := calls[..|calls| - 1];
      CallsStayHonest(json, tools, n, p, before);
      CallStaysHonest(json, tools, n, CalledAll(json, tools, p, before), calls[|calls| - 1]);
    }
  }

  lemma {:induction false} CompletionStaysHonest(json: Json, tools: seq<Tool>, replies: seq<Reply>, n: nat,
                                                 p: Progress, i: nat)
    requires Faithful(json) && Honest(json, n, p) && n <= |p.store.log| && i <= |replies|
    ensures Honest(json, n, Completed(json, tools, replies, p, i).0)
    ensures p.store.log <= Completed(json, tools, replies, p, i).0.store.log
    decreases |replies| - i
  {
    if i < |replies| && replies[i].Replied? && replies[i].calls != [] {
      var Replied(content, calls) := replies[i];
      var q := p.(messages := p.messages + [ChatMessage("assistant", content, calls, "")]);
      assert Honest(json, n, q);
      CallsStayHonest(json, tools, n, q, calls);
      CompletionStaysHonest(json, tools, replies, n, CalledAll(json, tools, q, calls), i + 1);
    }
  }

  lemma {:induction false} LatestIsBacked(json: Json, n: nat, log: seq<Reservation>, results: seq<ToolCallResult>)
    requires forall i | 0 <= i < |results| && results[i].name == Name(CreateReservation) ::
      Backed(json, n, log, results[i].content)
    ensures var latest := LatestReservation(json, results);
      latest.None? || latest.value == ZERO || exists k :: n <= k < |log| && latest.value == log[k]
  {
    if results != [] && results[|results| - 1].name != Name(CreateReservation) {
      LatestIsBacked(json, n, log, results[..|results| - 1]);
    }
  }

  lemma {:induction false} AnswerIsFinalized(json: Json, tools: seq<Tool>, replies: seq<Reply>, p: Progress, i: nat)
    returns (content: string)
    requires i <= |replies| && Completed(json, tools, replies, p, i).1.Ok?
    ensures var (q, text) := Completed(json, tools, replies, p, i);
      text.value == Finalized(content, LatestReservation(json, q.results))
    decreases |replies| - i
  {
    var Replied(said, calls) := replies[i];
    if calls == [] {
      content := said;
    } else {
      content := AnswerIsFinalized(json, tools, replies, Round(json, tools, p, said, calls), i + 1);
    }
  }

  /** Booking truthfulness: whatever the model replies and calls and whatever other sessions book
      meanwhile, if the text of a completion looks like a confirmation, then the last result of
      create_reservation decodes to a reservation that was confirmed, is on record since the completion
      began, and was deducted from its room. */
  lemma ConfirmationIsTrue(json: Json, req: Request, replies: seq<Reply>, start: State, messages: seq<ChatMessage>)
    requires Faithful(json) && Consistent(start)
    ensures var (end, text) :=
        Completed(json, Offered(HOTEL_TOOLS, req), replies, Progress(start, messages, []), 0);
      text.Ok? && LooksConfirmed(text.value) ==>
        exists n: nat, k :: IsLastBooking(end.results, n) && |start.log| <= k < |end.store.log|
          && json.reservation(end.results[n].content) == Ok(end.store.log[k])
          && Stands(end.store, k)
  {
    var tools, p := Offered(HOTEL_TOOLS, req), Progress(start, messages, []);
    var (end, text) := Completed(json, tools, replies, p, 0);
    CompletionStaysHonest(json, tools, replies, |start.log|, p, 0);
    if text.Ok? && LooksConfirmed(text.value) {
      var content := AnswerIsFinalized(json, tools, replies, p, 0);
      LatestIsBacked(json, |start.log|, end.store.log, end.results);
      LooksConfirmedIsBacked(content, |start.log|, end.store, LatestReservation(json, end.results));
      var k :| |start.log| <= k < |end.store.log|
        && LatestReservation(json, end.results) == Some(end.store.log[k]) && Stands(end.store, k);
      LatestExactly(json, end.results);
      var n: nat :| IsLastBooking(end.results, n);
      assert json.reservation(end.results[n].content) == Ok(end.store.log[k]);
    }
  }

  /** Record k confirms a booking that is deducted: the rooms still available, the bookings of its kind
      up to it and those after it make up the seed. */
  ghost predicate Stands(s: State, k: nat)
    requires k < |s.log|
  {
    var r := s.log[k];
    && r.status == CONFIRMED
    && r.roomTypeID in SEED && r.roomTypeID in s.rooms
    && r.availableAfter + Booked(s.log[..k + 1], r.roomTypeID) == SEED[r.roomTypeID].available
    && s.rooms[r.roomTypeID].available + Booked(s.log, r.roomTypeID) == SEED[r.roomTypeID].available
    && s.rooms[r.roomTypeID].available <= r.availableAfter < SEED[r.roomTypeID].available
  }

  lemma LooksConfirmedIsBacked(content: string, n: nat, s: State, latest: Option<Reservation>)
    requires Consistent(s)
    requires latest.None? || latest.value == ZERO || exists k :: n <= k < |s.log| && latest.value == s.log[k]
    requires LooksConfirmed(Finalized(content, latest))
    ensures exists k :: n <= k < |s.log| && latest == Some(s.log[k]) && Stands(s, k)
  {
    if latest.None? || latest.value == ZERO {
      ReplacementDoesNotLookConfirmed(content, latest);
      assert false;
    }
    var k :| n <= k < |s.log| && latest.value == s.log[k];
    var r := s.log[k];
    assert RecordConsistent(s.log, k);
    if r.status != CONFIRMED {
      ReplacementDoesNotLookConfirmed(content, latest);
      assert false;
    }
    assert RoomConsistent(s, r.roomTypeID);
    BookedGrows(s.log, k + 1, |s.log|, r.roomTypeID);
    assert s.log[..|s.log|] == s.log;
    assert s.log[..k + 1][..k] == s.log[..k];
  }
}
