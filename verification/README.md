# Verification of the voice agent's core

The voice agent keeps one call alive with many goroutines: voice activity detection, interrupt hints, HTTP handlers, the
control channel, response runs and the scheduled end all race on one session. This project models the parts of it that
are hard to get right and proves what they promise, for all inputs, all runs and all interleavings. To check it:

    dafny verify dfyconfig.toml

Each file is one module, named after the component it models.

- **Turn protocol** (`SessionTask`, `SessionAnswers`, `TurnProtocol`, `ComingToRest`, `HandlersAlone`, `TurnEnding`,
  `LateCompletions`, `CompletionWays`, `EndingOrder`, `EndingRuns`, `OpeningRendezvous`, `SecondGreeting`).
  `SessionTask` is the mutex-guarded task; its methods are the critical sections, and its lemmas speak of every
  sequence of calls. `SessionAnswers` tells every answer from the calls made before. `TurnProtocol` puts the
  goroutines on top: each is a program counter, each step one critical section of the task or the session table or one
  emitted message, and any number of goroutines may start at any moment. Its invariant is a conservation law: every
  allotment, interruption and completion of a turn has been told to the client exactly once or is owed by exactly one
  goroutine. `ComingToRest` proves that every goroutine can go on until it is gone, within a bounded number of its own
  steps, and `HandlersAlone` what each does and sends when it meets no other. `TurnEnding` says what stands before the
  announced end, `LateCompletions` and `CompletionWays` exactly which completions can still follow it, `EndingOrder`
  when the promised order holds, and `EndingRuns` has the runs that break it. `OpeningRendezvous` is the session
  table, with entries that may be closed and replaced, and `SecondGreeting` says when an entry greets again.
- **Downlink audio** (`DownlinkWriter`, `DownlinkPlays`, `DownlinkCut`, `MuLaw`, `DownlinkCodec`, `Pcm`).
  `DownlinkWriter` has producers, the pacing writer, flushers, waiters and close in any interleaving, `DownlinkPlays`
  what becomes of frames that are left to be played, flushed or refused, and `DownlinkCut` what can still be heard of
  a reply that was cut. `MuLaw` proves the encoder against a decoder written from ITU-T Recommendation G.711 (Tables
  2a and 2b), which the repository does not contain; the payload format is PCMU, section 4.5.14 of RFC 3551.
- **Stream transformers against a batch meaning** (`Segmenter`, `ResponseRun`, `AsrFilter`, `AsrInput`, `VolcPackets`,
  `VolcSender`, `Transcript`). Each streaming loop is proved equal to a rule that sees the whole input at once.
- **Booking truthfulness** (`HotelText`, `HotelStore`, `ToolLoop`, `HotelTurn`). The language model may say and call
  anything, and other sessions may book in between; a reply that looks like a confirmation is still backed by a stored,
  deducted reservation. `HotelTurn` carries this through the response run to what the guest hears.
- **Endpointing and signalling** (`Endpointer`, `Mailbox`, `MailboxOrder`, `ControlChannel`).
- `Counting`, `Runs` and `Buffering` hold what the state machines share: totals over sequences, finite runs, and the order
  of what is buffered under a lock and sent outside it. `Text`, `Arith` and `Outcome` hold the string operations, the
  non-linear arithmetic and the result types.

Runs are finite sequences of states that start in the initial state and whose neighbours are related by one step. A step
chooses freely what the source leaves to the outside: which goroutine moves, whether a call into another system fails,
when a timer fires.

## Where the code does less than one might expect

In each case the code is modelled as it is, the failing behaviour is exhibited, and its exact condition is proved.

- `docs/datachannel-protocol.md` puts `session.ending` after the last `turn.completed`. The run that schedules the end
  looks neither whether it could complete its turn nor what else is under way. So the end may be announced without a
  completion (`EndingWithoutCompletion`), before the completion of its turn is told (`CompletionToldLate`), and before a
  turn is completed that was let in earlier (`CompletionAfterEnding`). A run that comes to rest keeps the order exactly
  if, when the end was announced, its turn was completed, no completion was still to be told, and none was made later
  (`OrderExactly`). Which completions can still be made is exactly known (`FollowsExactly`): once the end is scheduled, or
  the entry closed, only those of turns that are not over and that a goroutine still leads to, namely a stream or a run
  of the turn, speech that passed its test of the scheduled end, or a claimed opening attempt. So the order is guaranteed
  exactly if the completion has been told, no other is owed, and either the session is over or nothing of this kind is
  left (`OrderGuaranteedExactly`, `Settled`); it may well be while the session is still listed (`KeptWhileListed`). All
  this is of one entry of the session table: a further entry, made after the entry was closed and before the session is
  taken off the list, lets speech in again, and then only the end of the session settles it (the scope `AnyEntry`).
- An opening attempt that fails after its session entry was replaced clears the flag of the fresh entry, which can then
  greet twice (`GreetedTwice`). The number of greetings is bounded by one plus the number of such failures, and an entry
  that was never replaced greets at most once. From any reachable state an entry that has greeted can greet again exactly
  if such a failure happened and an attempt is under way, or the entry is current, not ending, and its flag is clear or
  about to be cleared by its own failed attempt, with the session listed (`GreetsAgainExactly`); whether the task then
  grants the turn is left to the step.
- A late final of an old recognizer stream closes the input that is current (`LateFinalClosesNextInput`); a forwarder ends
  its own input exactly if no input was taken since its stream was started (`EndsItsOwnExactly`).
- A silence timer that has fired cannot be stopped, so its callback can end an utterance that was resumed
  (`StaleCallbackEndsSpeech`), or cut short a silence that has just begun (`StaleCallbackCutsSilence`). A callback that
  ends an utterance ends one that was silent since its timer was started exactly if that timer is the one the endpointer
  holds (`EndIsSilentExactly`).
- A message relayed right after a role attached may overtake the ones buffered for it (`OvertakenFromStart`). The role
  gets the notice and the buffered messages first and in order exactly if the hub accepted no message for it between the
  attachment and the last of them (`BufferedFirstExactly`). The control channel has the same weakness
  (`OvertakenOnOpen`): `session.ready` and what waited come first exactly if nobody else sent on the channel before the
  last of them (`PendingFirstExactly`).
- A cancelled run goes on enqueueing the audio it gets, so a reply may be heard after the flush of a barge-in has returned
  (`CutReplyIsHeard`). Of each call of `WritePCM16K` something can still be heard exactly if the writer is not over and the
  call has frames left to enqueue, or one of the frames it enqueued since the flush was called is in the writer's hand or
  waits in the queue and is not about to be drained (`HeardAfterFlushExactly`).
- Negative zero is the one µ-law code word that does not survive decoding and encoding.
- A plain iFlytek result is shown even under a number below one, which assembling would skip; apart from that the text
  shown is the last-writer meaning of the history (`ShownIsLastWrites`).
- A confirmation of a booking made in an earlier turn is withdrawn: only a reservation made in the same completion counts
  (`LeftAloneExactly`).

## Model

| member | source | states |
|---|---|---|
| SessionTask.TaskObject.constructor | internal/session/task.go:43-50 | a new task is created, with no turn |
| SessionTask.TaskObject.BeginNegotiation | internal/session/task.go:52-63 | negotiation begins once, from a new task; refused otherwise without effect |
| SessionTask.TaskObject.MarkActive | internal/session/task.go:65-77 | a task becomes active from every state but active, closing and closed, even with a turn open |
| SessionTask.TaskObject.StartTurn | internal/session/task.go:79-91 | a turn starts only on an active task and gets the next id |
| SessionTask.TaskObject.EnsureTurn | internal/session/task.go:93-108 | the open turn is joined, whether it is being answered or not, or a new one started, and the caller told which |
| SessionTask.TaskObject.StartResponse | internal/session/task.go:110-124 | only the current, unanswered turn can be answered |
| SessionTask.TaskObject.CompleteTurn | internal/session/task.go:126-140 | only the current, open turn can be completed |
| SessionTask.TaskObject.Interrupt | internal/session/task.go:142-159 | an open turn is cut and its id and the next one reported |
| SessionTask.TaskObject.End | internal/session/task.go:161-174 | the task is closed from any state, and touched only the first time |
| SessionTask.EveryHistoryIsExplained | internal/session/task.go:52-174 | after any sequence of calls: ids 1, 2, ... were allotted in order, each lived open, answered, finished, and only the current one can be open |
| SessionTask.EachTurnLivesOnce | internal/session/task.go:79-159 | no id is allotted, answered or closed twice; completion, interruption and abandonment exclude each other and end its life |
| SessionTask.LivesOnce | internal/session/task.go:79-159 | the same as exact counts, by the phase the id is in |
| SessionTask.NextTurnAfterInterrupt | internal/session/task.go:142-159 | the first id allotted after an interruption is the NextTurnID it reported |
| SessionTask.ClosedAbsorbs | internal/session/task.go:161-174 | after End every other call is refused and nothing has an effect |
| SessionAnswers.TurnAnswersExactly | internal/session/task.go:93-159 | after any sequence of calls, told by what became of turn k: it can be answered exactly while it is open and unanswered, and completed, interrupted and joined exactly while it is open |
| SessionAnswers.AllotsExactly | internal/session/task.go:79-159 | after any calls: the next id is allotted exactly while the session was made active, was not ended and has no open turn; nothing is interrupted exactly if none is open |
| SessionAnswers.SessionAnswersExactly | internal/session/task.go:52-174 | after any calls: exactly when negotiation and activation are accepted; the end always is |
| SessionAnswers.EffectsAreAnswered | internal/session/task.go:52-174 | after any calls: what a call does to a turn is what its answer says |
| TurnProtocol.ReplyIsOwed | internal/app/bot/control_runtime.go:253-449 | after each call a goroutine owes exactly the announcement of what the reply told it |
| TurnProtocol.StepConserves | internal/app/bot/control_runtime.go:253-449 | no step loses or duplicates an announcement of an allotment, interruption or completion |
| TurnProtocol.StepKeepsEnds | internal/app/bot/rtc_manager.go:136-165 | no step lets an entry of the session table announce its end more often than once |
| TurnProtocol.InvNext | internal/app/bot/control_runtime.go:253-449 | starting a goroutine and every step of one keep the protocol's invariant |
| TurnProtocol.TurnProtocolIsSafe | internal/app/bot/control_runtime.go:253-449 | in every interleaving each id is started, answered and closed at most once and announced at most once, never both completed and interrupted, interruptions name the next id, session.ending is sent at most once for each entry of the session table |
| TurnProtocol.QuietRunsToldEverything | internal/app/bot/control_runtime.go:462-474 | when all goroutines are gone, what was announced is exactly what happened |
| TurnProtocol.ClosedForGood | internal/session/task.go:161-174 | once a run has closed the session, no later step changes the task or befalls a turn |
| ComingToRest.StartsExactly | internal/app/bot/server.go:87-95 | which goroutines start from outside the call |
| ComingToRest.StepsDown | internal/app/bot/control_runtime.go:253-449 | every step takes a goroutine nearer to its end, whatever the others did |
| ComingToRest.ComesToRest | internal/app/bot/control_runtime.go:253-449 | in every run in which no goroutine is started any more: only so many steps are left, and as long as one is not gone there is a next step |
| ComingToRest.CanComeToRest | internal/app/bot/control_runtime.go:253-449 | from every reachable state a call can come to rest |
| HandlersAlone.AloneItEnds | internal/app/bot/control_runtime.go:253-449 | every goroutine that meets no step of another comes to its end, so that the following statements speak of something |
| HandlersAlone.HintInterruptsOpenTurn | internal/app/bot/control_runtime.go:376-449 | a hint that finds a turn open, answered or not, interrupts it and sends the two messages of a barge-in |
| HandlersAlone.HintWithoutTurn | internal/app/bot/control_runtime.go:376-449 | a hint that finds no turn open starts one, answers it and interrupts it, and says so in this order |
| HandlersAlone.SpeechIsLetIn | internal/app/bot/rtc_manager.go:392-402 | speech is let in exactly if the end of its session is not scheduled |
| HandlersAlone.SpeechJoinsOrStarts | internal/app/bot/control_runtime.go:253-322 | speech joins the open turn or starts one, and says so, and then asks for the recognizer |
| HandlersAlone.SpeechBargesIn | internal/app/bot/control_runtime.go:253-322 | speech while the bot answers interrupts the answered turn and starts the next, and says both in this order |
| HandlersAlone.SpeechIsHeard | internal/app/bot/asr_runtime.go:88-129 | the recognizer listens to the turn that is current, for a listed session with an entry only |
| HandlersAlone.UnlistedIsLeftAlone | internal/app/bot/control_runtime.go:48-54 | nobody who looks up a session that is over changes or announces anything |
| HandlersAlone.HttpStarts | internal/app/bot/server.go:169-189 | a turn started over HTTP is answered and told, or nothing happens |
| HandlersAlone.HttpInterrupts | internal/app/bot/server.go:191-212 | an interruption over HTTP cuts the open turn and reports it and the next, or nothing happens |
| HandlersAlone.SessionIsCreated | internal/app/bot/server.go:136-167 | a new session is negotiated and active |
| HandlersAlone.ChannelOpens | internal/app/bot/control_runtime.go:65-83 | a control channel that opens makes the session active, says it is ready and makes sure of its entry |
| HandlersAlone.OpeningIsAnswered | internal/app/bot/response_runtime.go:98-133 | a claimed opening turn is started, told and answered |
| HandlersAlone.FinalIsAnswered | internal/app/bot/response_runtime.go:135-150 | a transcript is answered exactly if its turn is current and unanswered |
| HandlersAlone.CompletionIsTold | internal/app/bot/response_runtime.go:366-378 | a turn is completed and told exactly if it is current and open, and the end may be scheduled either way |
| HandlersAlone.EndIsAnnounced | internal/app/bot/rtc_manager.go:136-165 | the first to schedule the end of an entry announces it, removes the entry and ends the session; others do nothing |
| TurnEnding.MarkedByItsGuard | internal/app/bot/response_runtime.go:231-241 | a run that goes on to schedule the end has completed its turn itself exactly if the session was listed and that turn current and open at its CompleteTurn, and then tells so before |
| TurnEnding.EndingFollowsCompletion | internal/app/bot/response_runtime.go:231-241 | in every run: when the end is announced, the completion of the run's turn stands before it exactly if the turn is completed and no goroutine has still to say so, and always if the run completed it itself |
| LateCompletions.OnlyTheseFollow | internal/app/bot/rtc_manager.go:115-176 | a completion told after any moment of any run was owed then, or its turn could still be completed by what had passed its test or could still pass it |
| CompletionWays.FollowsExactly | internal/app/bot/rtc_manager.go:385-402 | from every reachable state exactly these completions can still be told: those owed, and, unless the session is over, those of turns that are not over and that a stream or run of them, speech let in, a claimed opening attempt or an entry that still lets speech in leads to; for one entry of the session table, and for all that may be made |
| CompletionWays.SettledExactly | internal/app/bot/rtc_manager.go:115-176 | no turn can be completed any more exactly if the session is over, or its entry lets no speech in and no goroutine leads to a completion |
| EndingOrder.OrderExactly | internal/app/bot/response_runtime.go:231-241 | a run that comes to rest has session.ending after the last turn.completed exactly if, at the announcement, the turn that ends was completed, no completion was owed, and none is made afterwards |
| EndingOrder.OrderGuaranteedExactly | internal/app/bot/rtc_manager.go:136-176 | everything that can happen after an announced end keeps that order exactly if the completion was told, none is owed, and no turn can be completed any more |
| EndingRuns.EndingWithoutCompletion | internal/app/bot/response_runtime.go:231-241 | a run that ends the session although its interrupted turn was never completed |
| EndingRuns.CompletionAfterEnding | internal/app/bot/rtc_manager.go:392-402 | a run that completes its turn, ends the session, and completes another turn after that, for speech let in just before |
| EndingRuns.KeptWhileListed | internal/app/bot/rtc_manager.go:136-176 | the same run without that speech keeps the order whatever follows for its entry while the session is still listed, and not if a further entry may be made |
| EndingRuns.CompletionToldLate | internal/app/bot/response_runtime.go:366-378 | a run whose turn was completed by an empty final that tells so only after the end |
| OpeningRendezvous.RtcManager.MakeEntry | internal/app/bot/rtc_manager.go:178-187 | an offer or candidate makes the session's entry if there is none and leaves an existing one alone |
| OpeningRendezvous.RtcManager.MarkReady | internal/app/bot/rtc_manager.go:102-110 | the open control channel is noted on the session's entry, made if need be |
| OpeningRendezvous.RtcManager.Register | internal/app/bot/rtc_manager.go:419-429 | the track's response runtime is noted if the entry still exists |
| OpeningRendezvous.RtcManager.TryOpening | internal/app/bot/rtc_manager.go:115-124 | the opening turn is claimed exactly if the control channel is ready, the response runtime is there, it is unclaimed and the end is not scheduled |
| OpeningRendezvous.RtcManager.UndoOpening | internal/app/bot/rtc_manager.go:126-133 | a failed attempt releases the claim of whichever entry is current by then |
| OpeningRendezvous.RtcManager.BeginEnd | internal/app/bot/rtc_manager.go:136-145 | the end is scheduled by the first caller only |
| OpeningRendezvous.RtcManager.Close | internal/app/bot/rtc_manager.go:268-277 | the entry leaves the table |
| OpeningRendezvous.OpeningIsSafe | internal/app/bot/rtc_manager.go:102-149 | in every interleaving an entry greets at most once more often than failures of other entries cleared its flag, announces its end at most once, and begins no greeting after its end was scheduled |
| OpeningRendezvous.OneEntryGreetsOnce | internal/app/bot/rtc_manager.go:115-134 | an entry that is the only one ever greets at most once |
| OpeningRendezvous.AttemptsAreReady | internal/app/bot/rtc_manager.go:115-124 | in every run a greeting is attempted only for an entry whose control channel and response runtime are both there, as they stay |
| OpeningRendezvous.NobodyIsStranded | internal/app/bot/rtc_manager.go:102-124 | no lost rendezvous: with control channel and response runtime both there, a greeting has been attempted unless the end is scheduled |
| OpeningRendezvous.EndingsAreAnnounced | internal/app/bot/rtc_manager.go:136-149 | a quiet run announced the end of an entry exactly if it was scheduled |
| SecondGreeting.GreetsOnExactly | internal/app/bot/rtc_manager.go:102-134 | from every reachable state an entry can open a further turn, with no others clearing its flag any more, exactly if the session is listed and an attempt is under way, or the entry is current, not ending, and its flag is clear or about to be cleared by its own failure |
| SecondGreeting.GreetsAgainExactly | internal/app/bot/rtc_manager.go:102-134 | for an entry that has opened its turn that is so exactly if, besides, the failure of another entry has cleared its flag |
| SecondGreeting.ClearedGreetsAgain | internal/app/bot/rtc_manager.go:126-133 | an entry of a listed session that greeted, whose flag is clear, and which is current, ready and not ending, owes this to another's failure and greets again in some continuation |
| SecondGreeting.GreetedTwice | internal/app/bot/rtc_manager.go:126-133 | a run in which a replaced entry's failure lets the fresh entry greet twice |
| DownlinkWriter.Counter.MarkQueued | internal/app/bot/downlink_audio.go:288-299 | reserving frames raises the count and opens a new idle channel when it was idle |
| DownlinkWriter.Counter.MarkDone | internal/app/bot/downlink_audio.go:301-313 | settling frames lowers the count, clamped at zero, and closes the idle channel at zero |
| DownlinkWriter.StepKeepsAccounted | internal/app/bot/downlink_audio.go:166-313 | every step of every goroutine keeps pending equal to the frames not yet settled |
| DownlinkWriter.PendingIsExact | internal/app/bot/downlink_audio.go:97-313 | in every run pending counts the frames reserved, queued, in flight and drained but unreported; the clamps never act; the idle channel is closed exactly when nothing is pending |
| DownlinkWriter.FlushIsABarrier | internal/app/bot/downlink_audio.go:131-151 | once Flush has returned, no frame enqueued before its call is ever written |
| DownlinkWriter.EachFrameOneFate | internal/app/bot/downlink_audio.go:186-286 | every enqueued frame is written, failed, flushed, in the writer's hand or queued, exactly one of these; fates fall in the order of enqueueing, and what is written is, in that order, the frames fated to be |
| DownlinkWriter.WaitIdleMeansSettled | internal/app/bot/downlink_audio.go:112-129 | when WaitIdle returns through the idle channel, there was a moment since the call at which every frame marked before it was settled |
| DownlinkPlays.NothingIsDropped | internal/app/bot/downlink_audio.go:166-286 | in every run: before a close nothing is refused and the writer stays; before any flush as well, every frame taken is written unless writing it fails |
| DownlinkPlays.ReplyIsPlayed | internal/app/bot/downlink_audio.go:62-129 | from every reachable idle state a call of up to 512 frames can be written whole, in order, and a caller of WaitIdle leaves through the idle channel |
| DownlinkPlays.WriteMayFail | internal/app/bot/downlink_audio.go:201-223 | a frame that could not be written is accounted for like one that was |
| DownlinkPlays.FlushReturns | internal/app/bot/downlink_audio.go:131-286 | a flush can return from a waiting writer and from one that paces a frame, with the queue dropped, nothing written and the count lowered by exactly these frames |
| DownlinkPlays.CloseStops | internal/app/bot/downlink_audio.go:153-199 | a close can stop the writer, at its choice and while it paces a frame |
| DownlinkPlays.FrameIsRefused | internal/app/bot/downlink_audio.go:247-268 | a frame on offer at a closed downlink can be refused and its reservation is given back |
| DownlinkPlays.StoppedLetsGo | internal/app/bot/downlink_audio.go:112-151 | once the writer has stopped, callers of Flush and of WaitIdle get away |
| DownlinkPlays.OfferWaits | internal/app/bot/downlink_audio.go:247-268 | a frame on offer is refused only by a close, and put on the queue, at its end, only while fewer than 512 are there |
| DownlinkPlays.OnlyTheseEndPacing | internal/app/bot/downlink_audio.go:201-245 | pacing ends with the timer, with a close or with a flush |
| DownlinkCut.SoundsExactly | internal/app/bot/response_runtime.go:327-345 | from every reachable state a frame of a call of WritePCM16K can be written exactly if the writer is not over and the call is to come or has frames left, or a frame of it is in the writer's hand or queued and not about to be drained |
| DownlinkCut.HeardAfterFlushExactly | internal/app/bot/response_runtime.go:380-398 | after a flush has returned that is so exactly of calls to come or unfinished, and of frames enqueued since the flush was called that still wait |
| DownlinkCut.CutReplyIsHeard | internal/app/bot/response_runtime.go:327-345 | a run in which a call begun before a flush is heard after the flush has returned |
| MuLaw.LinearToMuLaw | internal/app/bot/downlink_audio.go:372-398 | the shifting loop finds sign, segment and interval of the clipped, biased magnitude |
| MuLaw.DecodesByTable | internal/app/bot/downlink_audio.go:372-398 | the decoder the encoder is proved against is the table of G.711: start and step of every segment |
| MuLaw.QuantizationError | internal/app/bot/downlink_audio.go:372-398 | decoding by G.711 gives the clipped sample to within half an interval of its segment |
| MuLaw.DecodingIsMonotone | internal/app/bot/downlink_audio.go:372-398 | a larger sample never decodes to a smaller value |
| MuLaw.EncodeAfterDecode | internal/app/bot/downlink_audio.go:372-398 | encoding a decoded code word gives it back, for exactly the code words other than negative zero |
| DownlinkCodec.PcmBytesToInt16 | internal/app/bot/downlink_audio.go:315-330 | the samples of a byte buffer in the byte order configured by name, little-endian for "little" and "le", big-endian for "", "big" and "be"; an error for any other name |
| DownlinkCodec.Pcm16ToMuLaw | internal/app/bot/downlink_audio.go:332-338 | one code word per sample, in order |
| DownlinkCodec.SplitMuLawFrames | internal/app/bot/downlink_audio.go:340-356 | the frames concatenate to the input, all but the last are full, none is empty |
| DownlinkCodec.CutIsUnique | internal/app/bot/downlink_audio.go:340-356 | there is only one such cut |
| DownlinkCodec.HalvedRate | internal/app/bot/downlink_audio.go:75-82 | normalising 16 kHz mono to 8 kHz keeps every second sample and cannot fail |
| DownlinkCodec.FramesOfPCM16K | internal/app/bot/downlink_audio.go:62-107 | an even buffer becomes ceil(n/2) code words in 20 ms frames whose durations add up exactly; odd buffers and unknown byte orders are errors, an empty buffer is none |
| DownlinkCodec.FarEndHears | internal/app/bot/downlink_audio.go:62-107 | byte j of the frames decodes to within half a step of clipped input sample 2j |
| DownlinkCodec.LittleEndianRoundTrip | internal/audio/pcm.go:34-40 | bytes sent to a recognizer read back as the samples |
| DownlinkCodec.RoundTripByName | internal/app/bot/downlink_audio.go:315-330 | little-endian bytes are read back under "little" and "le", the same with each pair swapped under the others, for every buffer |
| Pcm.DownmixToMono | internal/audio/pcm.go:51-72 | each output sample is the truncated mean of its group; ragged and mono buffers pass unchanged |
| Pcm.MeanIsNear | internal/audio/pcm.go:69 | the mean is rounded toward zero by less than one |
| Pcm.StereoMean | internal/audio/pcm.go:51-72 | of left and right comes their mean, rounded toward zero |
| Pcm.ResampleMono | internal/audio/pcm.go:74-96 | the nearest-sample output for all lengths and rates, zero rates and empty input included |
| Pcm.SourceIndexInRange | internal/audio/pcm.go:88-92 | the index map stays inside the input, so the clamp is dead |
| Pcm.SourceIndexAscends | internal/audio/pcm.go:88-92 | the index map is monotone |
| Pcm.ResampledLength | internal/audio/pcm.go:82 | the output lasts as long as the input to within one output sample |
| Pcm.ResampledConcat | internal/audio/pcm.go:74-96 | cutting the input behind a prefix that becomes whole output samples changes nothing |
| Pcm.ResampledStream | internal/audio/pcm.go:74-96 | the same for any list of frames of which all but the last are so aligned |
| Pcm.NormalizePCMFrame | internal/audio/pcm.go:9-32 | downmix then resample, with the three errors |
| Pcm.PCMToS16LE | internal/audio/pcm.go:34-40 | two bytes a sample, low byte first |
| Segmenter.PunctuationBoundarySegmenter.Push | internal/app/bot/response_runtime.go:464-477 | the segments a chunk completes and the text kept back |
| Segmenter.PunctuationBoundarySegmenter.Flush | internal/app/bot/response_runtime.go:479-483 | the trimmed rest, leaving nothing |
| Segmenter.ScanIsBatch | internal/app/bot/response_runtime.go:464-483 | one pass and a flush give the trimmed, non-blank pieces of the text cut behind its marks |
| Segmenter.CutIsUnique | internal/app/bot/response_runtime.go:464-477 | those pieces are the only ones that make up the text, end with a mark but for the last, and have none before |
| Segmenter.ChunkingDoesNotMatter | internal/app/bot/response_runtime.go:163-203 | however the reply is cut into chunks, synthesis is given the same segments |
| Segmenter.SegmentsSayTheReply | internal/app/bot/response_runtime.go:163-218 | no segment is empty or has a mark before its end, and together they say the reply up to white space |
| Segmenter.SegmentIsSlice | internal/app/bot/response_runtime.go:464-483 | every segment is one contiguous piece of the reply |
| ResponseRun.Runtime.SynthesizeSegment | internal/app/bot/response_runtime.go:289-364 | a segment is announced and reported exactly once, with its chunk and byte counts, even if synthesis fails to start |
| ResponseRun.Runtime.Run | internal/app/bot/response_runtime.go:135-252 | every started run emits a beginning of the turn's grammar, says the whole reply unless cancelled, reports each segment with the audio its synthesis gave and the tail as the tail, and schedules the end of the call by its directive and reply only |
| ResponseRun.Runtime.Stream | internal/app/bot/response_runtime.go:159-231 | the segments synthesized are those of the whole reply; a cancelled run never completes its turn |
| ResponseRun.Runtime.RunAssistantTurn | internal/app/bot/response_runtime.go:254-287 | the opening turn emits a beginning of one fixed sentence |
| ResponseRun.PrefixesAreGrammatical | internal/app/bot/response_runtime.go:161-231 | at every earlier moment the events were grammatical too |
| ResponseRun.GrammarPairsSegments | internal/app/bot/response_runtime.go:170-203 | speaking starts at most once and before any segment; segments are numbered 1, 2, 3, ... with started and completed strictly paired |
| ResponseRun.GrammarOfFinal | internal/app/bot/response_runtime.go:213-231 | llm.final is the concatenation of the partials and comes after all segments; only the end of speaking and the completion may follow |
| ResponseRun.CompletedIsLast | internal/app/bot/response_runtime.go:366-378 | turn.completed is the last event of a turn |
| ResponseRun.ChunksSay | internal/app/bot/response_runtime.go:161-170 | the texts announced make up the reply |
| ResponseRun.CountsUpToLast | internal/app/bot/response_runtime.go:327-353 | the counts reported of a segment are those of its events up to the first marked as last |
| ResponseRun.EndCallExactly | internal/app/bot/response_runtime.go:434-452 | a finished reply ends the call exactly if it says what the reason of the directive tells to expect, wherever in the text |
| AsrFilter.ForwardEvents | internal/app/bot/asr_runtime.go:241-340 | the streaming loop emits what the batch rule selects and ends the utterance exactly if something was decided |
| AsrFilter.ExactlyOneFinal | internal/app/bot/asr_runtime.go:241-340 | the unchanged events, then exactly one final if the stream has a final or any text that is not blank, and none otherwise |
| AsrFilter.FinalSays | internal/app/bot/asr_runtime.go:241-340 | the final is the text of the first event that decides, as it came |
| AsrFilter.LastResortSays | internal/app/bot/asr_runtime.go:325-340 | if no event decides, it is the last text that is not blank, trimmed |
| AsrFilter.StableExactly | internal/app/bot/asr_runtime.go:356-376 | a partial text decides exactly if it came at least four times in a row over 1.5 seconds or more, is not blank and holds a mark that ends a sentence |
| AsrInput.AsrRuntime.SpeechStart | internal/app/bot/asr_runtime.go:88-129 | an input is opened exactly if a turn exists, none is open and the recognizer starts |
| AsrInput.AsrRuntime.TakeInput | internal/app/bot/asr_runtime.go:142-195 | whoever ends the utterance takes the input and all counters are cleared |
| AsrInput.AsrRuntime.ConsumeFrame | internal/app/bot/asr_runtime.go:207-239 | an accepted chunk carries the next number and the exact time; a dropped one changes nothing |
| AsrInput.AsrRuntime.Forget | internal/app/bot/asr_runtime.go:342-353 | a forwarder forgets the input only if it is its own |
| AsrInput.ChannelsAreSafe | internal/app/bot/asr_runtime.go:102-239 | in every interleaving no channel is closed twice or sent to after close; chunks are numbered without gaps and stamped with the floor of the time sent before; bytes are twice the samples |
| AsrInput.MisusePanics | internal/app/bot/asr_runtime.go:142-239 | what the safety of the channels excludes: a send on a closed channel and a second close panic, and nothing else does |
| AsrInput.ClosedForGood | internal/app/bot/asr_runtime.go:142-195 | a closed channel stays closed and gets nothing more |
| AsrInput.UtteranceIsSent | internal/app/bot/asr_runtime.go:88-239 | from every reachable state without input an utterance of any frames can be sent on a channel of its own, in order, numbered and stamped, which is then closed |
| AsrInput.TimestampIsFloor | internal/app/bot/asr_runtime.go:207-239 | a chunk is stamped with the nanoseconds of the samples before it, rounded down |
| AsrInput.ForwarderLeaves | internal/app/bot/asr_runtime.go:342-353 | a forwarder that is done takes its own input with it and leaves that of a later stream alone |
| AsrInput.ForwarderEndsCurrentInput | internal/app/bot/asr_runtime.go:280-320 | a forwarder's final ends its own input exactly if that is the current one |
| AsrInput.StillTheInput | internal/app/bot/asr_runtime.go:88-195 | in every run a stream that had the input still has it exactly if no input was taken since |
| AsrInput.EndsItsOwnExactly | internal/app/bot/asr_runtime.go:280-320 | in every run the input a forwarder ends is its own exactly if no input was taken since its stream was started, and else a later one |
| AsrInput.LateFinalClosesNextInput | internal/app/bot/asr_runtime.go:280-320 | a run in which an old stream's final closes the next input |
| Endpointer.PacketEndpointer.ObserveFrame | internal/app/bot/endpointing.go:41-81 | speech starts an utterance and stops the timer, silence arms one timer, nothing happens once closed |
| Endpointer.PacketEndpointer.HandleSilenceTimeout | internal/app/bot/endpointing.go:106-122 | a callback ends the utterance only while open and active |
| Endpointer.PacketEndpointer.Close | internal/app/bot/endpointing.go:83-92 | closing stops the timer and starts nothing |
| Endpointer.LoudIsSpeech | internal/app/bot/endpointing.go:124-145 | a frame louder than 700 throughout is speech, one softer throughout is not |
| Endpointer.StartsAndEndsAlternate | internal/app/bot/endpointing.go:41-122 | in every run starts minus ends is one exactly while active and zero otherwise |
| Endpointer.NoLostEnd | internal/app/bot/endpointing.go:94-122 | while open and active after a silent frame some outstanding timer can still end the utterance |
| Endpointer.CallbackEndsUtterance | internal/app/bot/endpointing.go:106-122 | a callback, stale or not, ends the utterance exactly if the endpointer is open and active, whatever was heard |
| Endpointer.EndIsSilentExactly | internal/app/bot/endpointing.go:72-122 | in every run a callback that ends an utterance ends one silent since its timer was started exactly if that timer is the one held, and one whose last frame was silent exactly if any is held |
| Endpointer.StaleCallbackEndsSpeech | internal/app/bot/endpointing.go:72-74 | a run that ends an utterance whose last frame was speech |
| Endpointer.StaleCallbackCutsSilence | internal/app/bot/endpointing.go:72-122 | a run in which an old timer's callback ends a silence just begun while the timer of that silence still waits |
| VolcPackets.MakeHeader | internal/adapters/volc/binary.go:42-49 | four bytes that carry version, size and the low halves of the four fields |
| VolcPackets.ReadsBack | internal/adapters/volc/binary.go:51-61 | four big-endian bytes read back as the number written |
| VolcPackets.ParsePacket | internal/adapters/volc/binary.go:97-188 | the advancing offset reads every field where the layout puts it, with every error of short or foreign packets |
| VolcPackets.ParseRecovers | internal/adapters/volc/binary.go:97-188 | flags, sequence and payload are recovered from a message and from anything that starts with it |
| VolcPackets.TruncationIsNoticed | internal/adapters/volc/binary.go:97-170 | no proper prefix of a message is taken for a packet |
| VolcPackets.ExtensionIsSkipped | internal/adapters/volc/binary.go:97-127 | a packet with a longer header reads like the one without the extension |
| VolcPackets.ParseServerError | internal/adapters/volc/binary.go:145-178 | a server error is recovered with its code, with or without a sequence number, its payload unzipped if zipped, from anything that starts with it |
| VolcSender.RegroupingConserves | internal/adapters/volc/asr.go:241-260 | flushed buffers and the rest concatenate to the chunks received |
| VolcSender.GroupSizes | internal/adapters/volc/asr.go:250-258 | a flushed buffer has reached the target, by less than the chunk that completed it; the rest has not reached it |
| VolcSender.TargetIsDuration | internal/adapters/volc/asr.go:187-192 | a buffer holds the audio of the configured time, 200 ms by default, or 6400 bytes if that comes to nothing |
| VolcSender.Flush | internal/adapters/volc/asr.go:194-239 | one write attempt of the packet, numbered, negated and flagged if last, empty last packets uncompressed |
| VolcSender.SendChunks | internal/adapters/volc/asr.go:241-260 | the loop's buffer and number are those of the chunks received; a failed write leaves a prefix of the session on the wire |
| VolcSender.SendLoop | internal/adapters/volc/asr.go:149-261 | what is on the wire is the whole session, or its prefix if a write failed or the context was cancelled, and the caller is told which |
| VolcSender.PacketsStartWith | internal/adapters/volc/asr.go:174-239 | the eight bytes that every kind of packet starts with: version, type, flags, serialization, compression and number |
| VolcSender.SessionReadsBack | internal/adapters/volc/asr.go:194-261 | each audio packet parses to its number, flags and buffer |
| VolcSender.NothingIsLost | internal/adapters/volc/asr.go:149-261 | a closed session reads back: the request as 1, audio as 2, 3, ... with exactly the last negated, at least the target in all but the last, and put together exactly the input, given only that unzipping inverts zipping and zipped data is not empty (section 2.3 of RFC 1952) |
| Transcript.TranscriptAccumulator.Apply | internal/adapters/xfyun/transcript.go:16-54 | a result commits, resets, replaces or appends parts, and the text shown follows |
| Transcript.UpdateDoes | internal/adapters/xfyun/transcript.go:16-54 | by the result's own fields: what is committed, which parts are dropped and which are kept |
| Transcript.SlotSays | internal/adapters/xfyun/transcript.go:71-80 | a slot adds its first candidate at its place in the text |
| Transcript.FlattenDecodedText | internal/adapters/xfyun/transcript.go:71-80 | the first candidate of every slot that has one |
| Transcript.AssembleParts | internal/adapters/xfyun/transcript.go:56-69 | the parts in the order of their numbers, whatever order the map is walked in |
| Transcript.PartsAreLastWrites | internal/adapters/xfyun/transcript.go:16-54 | after any history a part is held exactly if a write of it was not cleared since, and it is the last text written |
| Transcript.ShownIsLastWrites | internal/adapters/xfyun/transcript.go:16-69 | the text shown is all committed text and then, in order, the last writes, for exactly the results that are final, patches, numbered from one or empty |
| Transcript.CommittedAreFinals | internal/adapters/xfyun/transcript.go:28-31 | the committed text is what the final results said, in order |
| Transcript.CommittedGrows | internal/adapters/xfyun/transcript.go:28-31 | committed text only grows at its end |
| Transcript.AppendsCommute | internal/adapters/xfyun/transcript.go:46-50 | appends under different numbers may come in either order |
| HotelStore.Store.ListReservations | internal/hotel/store.go:116-130 | the latest reservations first, at most the limit |
| HotelStore.Store.NextReservationID | internal/hotel/store.go:185-189 | the next id, counted up |
| HotelStore.Store.CreateReservation | internal/hotel/store.go:132-183 | every request is answered and logged, and a room is deducted exactly if it is confirmed |
| HotelStore.ReservationIDsDiffer | internal/hotel/store.go:185-189 | formatted ids of different numbers differ, also beyond six digits |
| HotelStore.ReservationIDReads | internal/hotel/store.go:185-189 | an id is its prefix and its number in at least six digits, with no more zeros than that takes |
| HotelStore.ReservationIDsAreDistinct | internal/hotel/store.go:185-189 | no two records of any history share an id |
| HotelStore.SpokenNumber | internal/hotel/store.go:191-203 | a number spoken as "n个d" is understood as n digits d for n from 1 to 20, whatever zeros precede n, and left as it is for any other n; it becomes an accepted number exactly for 3 to 20 |
| HotelStore.DemoPhoneIsNormal | internal/hotel/store.go:191-203 | an accepted number is normalized to itself |
| HotelStore.GroupedNumber | internal/hotel/store.go:191-203 | a number given in two groups, apart by a space or a dash, is taken as one |
| HotelStore.EveryHistoryIsConsistent | internal/hotel/store.go:132-183 | after any requests available and confirmed add up to the seed for each room, the k-th confirmed record carries seed minus k, confirmed phones have 3 to 20 digits |
| HotelStore.FirstComeFirstServed | internal/hotel/store.go:132-183 | a room is booked exactly as often as it was properly asked for, up to its seed |
| HotelStore.RecordTells | internal/hotel/store.go:132-183 | in every history record k carries the id k + 1 and the trimmed particulars of request k, and its status, message and rooms left are those of that request and of how many proper requests for the same room came before |
| HotelStore.SoldOutStaysSoldOut | internal/hotel/store.go:167-174 | after a sold-out answer no later record confirms that room |
| HotelText.GuardedDoesNotLookConfirmed | internal/app/bot/hotel_tools.go:244-250 | a text without certain pairs of runes contains none of the confirmation phrases |
| HotelText.FarewellExactly | internal/app/bot/hotel_tools.go:180-193 | a text says farewell exactly if it holds one of the phrases, or thanks and one of those for nothing more; the trimming does not matter |
| HotelText.PhoneNumberFound | internal/app/bot/hotel_tools.go:137 | a mobile number anywhere in a text is found |
| HotelText.PhoneNumberSplits | internal/app/bot/hotel_tools.go:137 | a text in which one is found holds one |
| ToolLoop.ToolsForRequest | internal/adapters/openaicompat/llm.go:125-133 | the tools that want to be used for the request, in order |
| ToolLoop.ReservationIsOffered | internal/app/bot/hotel_tools.go:139-156 | when the booking tool is offered, by the text and what the guest said before |
| ToolLoop.EndCallIsAlwaysOffered | internal/app/bot/hotel_tools.go:104-106 | some tool is offered with every request, so the finalizer is never bypassed |
| ToolLoop.FindTool | internal/adapters/openaicompat/llm.go:298-305 | a tool is found exactly if one of that name is offered |
| ToolLoop.CallTool | internal/adapters/openaicompat/llm.go:279-296 | what a call does to the store and answers, or the error for tools not offered and arguments that do not decode |
| ToolLoop.BookingCallAnswers | internal/app/bot/hotel_tools.go:52-102 | a booking call adds one record with what the arguments ask for and is answered by it; arguments that do not decode book nothing |
| ToolLoop.EndingCallAnswers | internal/app/bot/hotel_tools.go:208-228 | the end of the call is scheduled for one of three reasons, any other counting as the bot's farewell |
| ToolLoop.OtherCallAnswers | internal/adapters/openaicompat/llm.go:279-296 | rooms are listed as they are at the call, and an unknown tool is an error |
| ToolLoop.CallTools | internal/adapters/openaicompat/llm.go:212-223 | all calls of a reply are made in order |
| ToolLoop.EveryCallIsAnswered | internal/adapters/openaicompat/llm.go:212-223 | each call gets one tool message, in order, under its id, with the content the finalizer sees |
| ToolLoop.RoundTells | internal/adapters/openaicompat/llm.go:206-223 | a round is told to the model as what it said with its calls, and then their answers |
| ToolLoop.CallsInOrder | internal/adapters/openaicompat/llm.go:212-223 | each call is made on the store that the one before has left, and answered from it |
| ToolLoop.CompletionEnds | internal/adapters/openaicompat/llm.go:164-227 | the first reply that calls no tool ends the completion, with what it says or with its error; without one the rounds run out |
| ToolLoop.LatestReservationToolResult | internal/app/bot/hotel_tools.go:252-265 | what the last create_reservation result, by its place among the results, decodes to, or none if there is no such result or it does not decode |
| ToolLoop.LatestExactly | internal/app/bot/hotel_tools.go:252-265 | the same for every list of results |
| ToolLoop.FinalizeToolContent | internal/app/bot/hotel_tools.go:230-242 | a false confirmation is replaced by the refusal or a request for details |
| ToolLoop.ReplacementDoesNotLookConfirmed | internal/app/bot/hotel_tools.go:230-250 | no replacement text looks like a confirmation |
| ToolLoop.LeftAloneExactly | internal/app/bot/hotel_tools.go:230-242 | a reply is left alone exactly if it does not look confirmed or the latest reservation of the completion is confirmed |
| ToolLoop.CompleteWithTools | internal/adapters/openaicompat/llm.go:164-227 | at most six rounds; the text, the messages and the store it ends with, or its error |
| ToolLoop.Complete | internal/adapters/openaicompat/llm.go:83-111 | every completion with credentials goes through the tool loop |
| ToolLoop.PromptTells | internal/adapters/openaicompat/llm.go:83-123 | the model is told the system prompt first, the history in between and last what the guest says now |
| ToolLoop.ConfirmationIsTrue | internal/app/bot/hotel_tools.go:230-242 | whatever the model says and calls and others book meanwhile, if a reply looks confirmed, the last create_reservation result of the completion decodes to a confirmed record, made during this completion and deducted from its room |
| HotelTurn.ReplyIsText | internal/adapters/openaicompat/llm.go:195-204 | the run reads from the completion's channel exactly its text |
| HotelTurn.SpokenConfirmationIsTrue | internal/app/bot/response_runtime.go:163-203 | if any segment of the reply looks like a confirmation, a booking made since the completion began stands |
| HotelTurn.RespondToGuest | internal/app/bot/response_runtime.go:135-252 | a whole turn: whatever the model, synthesis, cancellation and other sessions do, no segment given to speech synthesis falsely looks like a confirmation |
| Mailbox.Hub.CreateSession | internal/app/signal/hub.go:44-60 | a session is created once, with nobody attached |
| Mailbox.Hub.AttachPeer | internal/app/signal/hub.go:82-105 | a role attaches once, to a queue of its own, and is handed what waited |
| Mailbox.Hub.DetachPeer | internal/app/signal/hub.go:107-120 | detaching closes the role's own queue, and nothing if it was not attached |
| Mailbox.Hub.RelayMessage | internal/app/signal/hub.go:122-147 | a message goes to the other role's queue or waits for it |
| Mailbox.ApplyKeepsValid | internal/app/signal/hub.go:82-147 | attached roles always have open queues of their own within capacity, so relay never meets a closed one |
| Mailbox.ClosedQueuesOnlyDrain | internal/app/signal/hub.go:107-120 | nothing is added to a closed queue |
| Mailbox.HubAgreesWithHistory | internal/app/signal/hub.go:44-147 | who is attached and what waits is exactly what the history of operations says |
| Mailbox.AttachReturnsWhatWaits | internal/app/signal/hub.go:82-105 | attach returns the last sixteen, in order, of all relayed to the role while it was away, and fails exactly for unknown sessions and attached roles |
| Mailbox.AttachReturnsNewest | internal/app/signal/hub.go:82-147 | the same by place: attach returns min(16, n) of the n envelopes that were relayed, the k-th being the k-th of the newest |
| Mailbox.NewestWaits | internal/app/signal/hub.go:122-147 | after a relay to an absent role the next attach returns that envelope last |
| Mailbox.RelayReachesItsRole | internal/app/signal/hub.go:122-147 | a relayed message reaches the attached role's own open queue and no other, fails exactly when that is full, and waits for an absent role |
| Mailbox.AttachedHasNothingPending | internal/app/signal/hub.go:98-104 | nothing waits for an attached role |
| MailboxOrder.PutsReachTheQueue | internal/app/signal/hub.go:122-147 | what operations put on a queue is all that ever reaches it, first in, first out |
| MailboxOrder.TraceIsRun | internal/app/signal/hub.go:44-147 | every history has exactly one trace of states |
| MailboxOrder.BufferedFirstExactly | internal/app/signal/server.go:190-201 | after every history and attachment: once the notice and all that attach returned have been sent, the queue was given these first and in order exactly if the hub accepted no message for the role before the last of them |
| MailboxOrder.DirectOvertakesBuffered | internal/app/signal/server.go:190-201 | in every valid state a message relayed right after attach comes before whatever is sent next |
| MailboxOrder.RelayedComesFirst | internal/app/signal/server.go:190-201 | the same after every history that leaves a role of an existing session absent, with what waits for it |
| MailboxOrder.OvertakenFromStart | internal/app/signal/server.go:190-201 | from the start and for either role, a history in which the buffered message comes second |
| ControlChannel.ControlRuntime.Bind | internal/app/bot/control_runtime.go:59-63 | the channel that opens is bound and takes over what waits |
| ControlChannel.ControlRuntime.Unbind | internal/app/bot/control_runtime.go:85-91 | a channel that closes is unbound unless another has taken its place |
| ControlChannel.ControlRuntime.Emit | internal/app/bot/control_runtime.go:462-484 | an envelope goes to the bound channel or waits, at most sixty-four of them |
| ControlChannel.RuntimeAgreesWithHistory | internal/app/bot/control_runtime.go:59-91 | which channel is bound and what waits is exactly what the history says |
| ControlChannel.OpenTakesWhatWaits | internal/app/bot/control_runtime.go:59-63 | a channel that opens takes over the last sixty-four, in order, of all emitted without a channel since the last one opened |
| ControlChannel.OpenTakesNewest | internal/app/bot/control_runtime.go:59-63 | the same by place: min(64, n) of the n that were emitted, the k-th being the k-th of the newest |
| ControlChannel.NewestWaits | internal/app/bot/control_runtime.go:462-484 | after an emission without a channel the next channel takes over that envelope last |
| ControlChannel.PendingFirstExactly | internal/app/bot/control_runtime.go:65-75 | after every history: once session.ready and all that waited have been sent, they came first and in order exactly if nobody else sent on the channel before the last of them |
| ControlChannel.OvertakenOnOpen | internal/app/bot/control_runtime.go:65-75 | from the start, a history in which what waited comes last |

## Left out

- TurnProtocolIsSafe: cancellation of a run is possible at any moment, which allows more than the cancel and currentTurn fields of the response runtime do; the extra bot.speaking.stopped of a cancelled run may name any turn. handleVADEnd and handleEndOfUtterance only emit and are not steps.
- TurnProtocol says nothing of the order in which messages of different goroutines arrive, which the code does not guarantee; a goroutine is assumed to be scheduled and its calls into other systems to return.
- FollowsExactly: whether a run has been cancelled is not part of its state, so a run counts as able to complete its turn until it is gone; whether a recognizer is there to listen is left to the step.
- SendLoop: the log line divides by the sample rate, so a rate of zero is excluded; packet numbers are below 2^31.
- NothingIsLost: zipped buffers are shorter than 2^32 bytes, the size field being 32 bits wide.
- ParseRecovers: messages without a sequence number, other than server errors, are not sent by the adapter and not covered.
- ForwardEvents: arrival times are arbitrary integers in milliseconds; the utterance is ended through `AsrInput`.
- Complete: the model's reply script has one entry for each of the six requests; failures of transport, status and decoding are one kind of reply.
- CreateReservation: creation times, descriptions, prices and capacities are not modelled.
- Mailbox peers are numbered queues instead of objects that share a channel, so object identity is the number.
- BufferedFirstExactly: a send to a full queue waits in the source; here it has no effect and is tried again.
- The peer connection, SDP, ICE, RTP, the Opus decoder, WebSocket and HTTP transport, HMAC signatures: foreign or I/O.
- JSON and gzip are abstract pairs of functions; only that reading inverts writing is assumed.
- The React client, configuration, logging, metrics, mocks and the TTS debug dump: nothing to prove.
- Speech detection compares the sum of squares with the threshold squared instead of floating-point roots.
- Durations and clocks: times are arbitrary, timers may fire at any moment.
- UTF-8: texts are sequences of runes. Fixed-width overflow far outside use is not modelled.
- The session manager beyond listed and unlisted, packet fan-out, trimming of the conversation history, turn directives, the inventory prompt for other models: easy members.
