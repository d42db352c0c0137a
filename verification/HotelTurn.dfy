/** A whole turn of the hotel demo: the run of internal/app/bot/response_runtime.go, with the reply of the
    tool loop of internal/adapters/openaicompat/llm.go. */
module HotelTurn {
  import opened HotelStore
  import opened HotelText
  import opened Outcome
  import ResponseRun
  import Segmenter
  import ToolLoop

  /** The channel that a completion returns. */
  function EventsOf(text: string): seq<ResponseRun.LlmEvent> {
    (if text != "" then [ResponseRun.LlmEvent(text, false)] else []) + [ResponseRun.LlmEvent("", true)]
  }

  lemma ReplyIsText(text: string)
    ensures ResponseRun.Reply(EventsOf(text)) == text
  {
    var events := EventsOf(text);
    ResponseRun.ReadCountIs(events, |events|);
    if text == "" {
      assert ResponseRun.TextsRead(events, 1) == ResponseRun.TextsRead(events, 0) + "";
    } else {
      assert ResponseRun.TextsRead(events, 1) == ResponseRun.TextsRead(events, 0) + text == text;
      assert ResponseRun.TextsRead(events, 2) == ResponseRun.TextsRead(events, 1) + "";
    }
  }

  /** The latest reservation of the completion is on record since `n`, confirmed and deducted. */
  ghost predicate Backed(n: nat, s: State) {
    exists k :: n <= k < |s.log| && ToolLoop.Stands(s, k)
  }

  /** If any segment of the reply looks like a confirmation to the guest, the booking stands. */
  lemma SpokenConfirmationIsTrue(json: ToolLoop.Json, req: ToolLoop.Request, replies: seq<ToolLoop.Reply>,
                                 start: State, messages: seq<ToolLoop.ChatMessage>, marks: set<char>, spoken: string)
    requires ToolLoop.Faithful(json) && Consistent(start) && LooksConfirmed(spoken)
    requires var (end, text) := ToolLoop.Completed(json, ToolLoop.Offered(ToolLoop.HOTEL_TOOLS, req), replies,
                                                   ToolLoop.Progress(start, messages, []), 0);
      text.Ok? && spoken in Segmenter.Segments(marks, text.value)
    ensures Backed(|start.log|, ToolLoop.Completed(json, ToolLoop.Offered(ToolLoop.HOTEL_TOOLS, req), replies,
                                                   ToolLoop.Progress(start, messages, []), 0).0.store)
  {
    var (end, text) := ToolLoop.Completed(json, ToolLoop.Offered(ToolLoop.HOTEL_TOOLS, req), replies,
                                          ToolLoop.Progress(start, messages, []), 0);
    var a, b := Segmenter.SegmentIsSlice(marks, text.value, spoken);
    PartLooksConfirmed(text.value, a, b);
    ToolLoop.ConfirmationIsTrue(json, req, replies, start, messages);
  }

  /** The run of one turn. Whatever the model says and calls, whatever others book meanwhile, however
      synthesis goes and whenever the run is cancelled: if a segment given to speech synthesis looks like
      a confirmation, a booking made during this turn stands. */
  method RespondToGuest(json: ToolLoop.Json, store: Store, runtime: ResponseRun.Runtime, ready: bool,
                        systemPrompt: string, req: ToolLoop.Request, replies: seq<ToolLoop.Reply>,
                        tts: nat -> ResponseRun.Tts, stopAt: nat, completes: bool, endCall: seq<string>)
    returns (scheduled: bool)
    requires ToolLoop.Faithful(json) && Consistent(store.Abs())
    requires |replies| == ToolLoop.MAX_TOOL_ITERATIONS && runtime.log == []
    modifies store, runtime
    ensures Consistent(store.Abs()) && old(store.reservations) <= store.reservations
    ensures forall t | t in ResponseRun.SegmentTexts(runtime.log) && LooksConfirmed(t) ::
      Backed(|old(store.reservations)|, store.Abs())
  {
    ghost var start := store.Abs();
    var text := ToolLoop.Complete(json, store, ready, systemPrompt, req, replies);
    var events := if text.Ok? then EventsOf(text.value) else [];
    var world := ResponseRun.World(true, text.Ok?, events, tts, stopAt, completes, endCall);
    scheduled := runtime.Run(world);
    if ready {
      KeepsConsistent(json, req, replies, start, ToolLoop.Prompt(systemPrompt, req));
    }
    if text.Ok? {
      ReplyIsText(text.value);
      ResponseRun.PhaseDescribes(runtime.log);
      GivenAreSegments(runtime, text.value, stopAt);
      forall t | t in ResponseRun.SegmentTexts(runtime.log) && LooksConfirmed(t)
        ensures Backed(|start.log|, store.Abs())
      {
        SpokenConfirmationIsTrue(json, req, replies, start, ToolLoop.Prompt(systemPrompt, req), runtime.Marks(), t);
      }
    }
  }

  lemma KeepsConsistent(json: ToolLoop.Json, req: ToolLoop.Request, replies: seq<ToolLoop.Reply>, start: State,
                        messages: seq<ToolLoop.ChatMessage>)
    requires ToolLoop.Faithful(json) && Consistent(start)
    ensures var end := ToolLoop.Completed(json, ToolLoop.Offered(ToolLoop.HOTEL_TOOLS, req), replies,
                                          ToolLoop.Progress(start, messages, []), 0).0.store;
      Consistent(end) && start.log <= end.log
  {
    var p := ToolLoop.Progress(start, messages, []);
    assert ToolLoop.Honest(json, |start.log|, p);
    ToolLoop.CompletionStaysHonest(json, ToolLoop.Offered(ToolLoop.HOTEL_TOOLS, req), replies, |start.log|, p, 0);
  }

  lemma GivenAreSegments(runtime: ResponseRun.Runtime, reply: string, stopAt: nat)
    ensures runtime.Given(reply, stopAt) <= Segmenter.Segments(runtime.Marks(), reply)
  {
    ResponseRun.TailCompletes(runtime.Marks(), reply);
  }
}
