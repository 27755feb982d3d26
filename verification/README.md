# Cascade realtime gateway: a verified model of the session core

Cascade turns a realtime voice protocol into a cascade of a recognizer (ASR), a
language model (LLM) and a synthesizer (TTS). One goroutine, the session actor,
owns all session state; everything else sends it facts. This project models that
actor and the small machines it drives, and proves what they keep over whole runs.

The parts, from the bottom up:

- `Audio`, `Utf8`: PCM arithmetic, loudness as exact sums of squares, Go's rune
  decoding on bytes. Text is a sequence of bytes throughout.
- `Vad`, `InputBuffer`, `IdleTrim`, `Turns`: the voice-activity detector, the input
  buffer with its millisecond timeline, why dropping idle audio cannot be seen, and
  the turn machine. `EnergyDetector`, `InputAudio` and `TurnManagement` hold the
  objects that are updated in place.
- `Sentences`, `SentenceBoundaries`, `Sentencing`: the streaming sentence splitter;
  `SentenceRules` tells on characters where a sentence ends.
  `SentenceChunking`, `SentenceCuts`, `SentenceStreams` and `SentenceCjk` compare it
  with a splitter that sees the whole text: what more text does to a boundary, when
  one cut shows, when a whole stream refines the batch splitter, and a condition on
  the text alone.
- `Conversations`, `ConversationLists`, `Truncation`, `Retruncation`: the item list,
  its replay to the model, and cutting an item to what was heard.
- `Events`, `Grammar`, `Traces`: what crosses the actor's channels, the grammar of a
  response on the wire, and what a legal trace tells a client.
- `Actor` specifies every handler of the session as a function of its state.
  `ActorInvariants`, `PipeInvariants`, `SpeechState` and `SpeechEvents` prove what
  handlers keep. `Commands` and `Outcomes` say what each client command does and how
  each response ends, `Answers` which turns are answered and what a speech start
  interrupts. `Sessions.Session` is the object: its methods do exactly what the
  functions say, and keep it valid and its trace legal.
- `PipeLog`, `Pipelines`: the LLM, sentencer and TTS stages of one response as steps
  over the channels between them, and the contract of the log they send.
- `Gateway`, `SessionRuns`, `SessionTexts`, `SpeechRuns`, `AudioRuns`, `PanicFree`:
  actor, queue and all pipelines together, and the theorems over every reachable
  state and every run. `Transcripts` follows what the recognizer heard to what the
  model is shown; `ProviderRuns` and `EndToEnd` follow what the providers gave to
  what the client is told; `Completion` shows that no response is ever stuck.
  `ServeSession` drives the object through any such run.
  `TruncateTwice` and `SpeechLost` hold two runs that end out of range, with the
  exact conditions.
- `Arrival`: the two inbound queues and the stashes that restore posting order.
- `AsrWriter`, `AsrTimeline`, `SilenceGate`: the DashScope task writer, its timeline
  mapping, and the filter for silence in synthesized speech.

How the model is cut:

- Concurrency is interleaving. `Gateway.Step` is one handler of the actor, one
  delivery from the response queue, one step of one stage of one pipeline, or the
  session being closed from outside; theorems quantify over all step sequences. A
  timer is the fact that it is armed and may fire at any later step. At most one
  handler still runs once the session is closed. In `Arrival` the producer and
  cancellation act between any two steps of the loop.
- Channels between stages and to the actor are unbounded queues, which admits every
  schedule of the bounded ones.
- Trace properties are about calls of `emit`, which drops events only once the
  session's context is done.
- The outcomes of `PushAudio`, `Finalize` and of configuration validation, and
  `unicode.IsLetter`, are parameters.
- Items and responses are pointers in the source. Here an item is an entry of the
  index, found by its ref, and the active response a value held by the session.
- `truncate.go` computes a proportion in float64; the model takes the exact quotient
  rounded down.
- The `State` field `turnNo` exists only to say which turn a timer was armed in. The
  field `panicked` says that a slice went out of range; what the model does after
  that stands for nothing.
- A text-only pipeline's TTS stage only drains its sentences; otherwise the
  provider synthesizes one stream per sentence.

Three properties are false of the code as it is. Each is stated with the exact
condition under which it holds and an input on which it does not:

- The comment on `trimText` promises a prefix without conditions. The segment tier
  slices out of range when an item is truncated again inside a segment that the
  earlier ones shortened (`Retruncation.TrimExactly`,
  `TruncateTwice.NextTruncatePanics`, `TruncateTwice.ItHappens`).
- The sentences of a stream depend on its chunking, when a chunk ends inside a run of
  terminators and quotes that holds a CJK terminator (`SentenceStreams.StreamIsBatch`
  and `SentenceStreams.EveryChunkingAgrees`; `SentenceCjk.QuoteComesTooLate`).
- An append may bring several detector events. When one of them ends a turn, the
  commit resets the detector and takes the audio, but the events behind it are still
  handled with offsets on the old timeline: a speech that starts again in the same
  append opens a turn nobody is heard in, and marks its start ahead of all audio, so
  that a commit soon after slices out of range (`SpeechEvents.AudioKeepsExactly`,
  `SpeechRuns.AgreementIsExact`, `SpeechLost.LostCommitPanics`, `SpeechLost.ItHappens`).

Runs that avoid the first and the third never slice out of range
(`PanicFree.NothingPanics`).

## Model

| member | source | states |
|---|---|---|
| SessionRuns.EveryTraceIsLegal | internal/session/session.go:1048-1359 | After any interleaving of commands, audio, transcripts, timers, stage steps and stale facts, everything emitted so far is one legal trace, and ending the session now closes the open response |
| SessionRuns.QueuedFactsAreAddressed | internal/session/session.go:1162-1167 | Every queued fact that passes the generation filter, wherever it is in the queue, names the active response and suits its modality; every other one leaves the session exactly as it was |
| SessionRuns.CompletionLosesNothing | internal/session/session.go:1279-1285 | When a response completes, the text and audio emitted are all its pipeline has sent, and unless the session is closing the recorded segments tile all of that text and audio |
| EndToEnd.ClientHearsProviders | internal/session/pipeline.go:62-259 | After any run of a new session, when a response completes: the text emitted is the concatenation of its LLM's deltas, the audio all whole samples its TTS gave, the alignment on record all there was, and the reported status says how the LLM finished |
| Outcomes.CompletionReportsFinish | internal/session/response.go:66-74 | Read off the pipeline's log: response done says completed iff the LLM stopped, incomplete with max output tokens iff it ran into the limit, incomplete with content filter iff filtered; the message item is closed accordingly and the output lists it and the call |
| Outcomes.ErrorFails | internal/session/session.go:1230-1240 | A provider's failure emits its error and ends the response as failed |
| Outcomes.CancelTells | internal/session/session.go:570-580 | A cancel ends the response it names, or whichever is active, as cancelled by the client; any other is refused and changes nothing |
| Outcomes.CleanupTells | internal/session/session.go:422-463 | The end of the session cancels the open response, and session closed is the very last event |
| Outcomes.NoneLingers | internal/session/response.go:76-84 | In every reachable state a running response whose LLM is done still misses the TTS stage's end, speaks, and is not text only |
| Completion.EveryResponseCanEnd | internal/session/session.go:1020-1036 | From every reachable state of a live session the active response can end: by steps of its own stages and deliveries of what they send, after the transcript timer if it waits for that; only a provider that failed without saying so is excepted |
| Completion.StagesCanStop | internal/session/pipeline.go:62-259 | Once the session is closed or a pipeline's response is not the running one, each of its stages that has not ended can stop at once, and they send nothing more |
| ProviderRuns.CanAlwaysEnd | internal/session/pipeline.go:62-259 | Wherever the stages of a pipeline are, none is stuck: unstopped steps of theirs end all three, and they tell the ends they make |
| SessionRuns.CompletedStaysComplete | internal/session/pipeline.go:62-259 | Once a pipeline has sent what completion needs, no later step of any of its stages adds text or audio |
| SessionRuns.RecordedSegmentsTile | internal/session/session.go:1168-1207 | At any moment the segments of an untruncated item tile its text from 0 and its audio from 0, inside what is accumulated there |
| SessionRuns.FirstTruncateIsSafe | internal/session/session.go:699-731 | In any reachable session, up to and including the handler that is running when it is cancelled, the first truncate of an item slices in bounds at every cut, keeps a valid prefix, never less for a later cut, and everything at the end |
| SessionRuns.WaitsAreBounded | internal/session/session.go:320-344 | In every reachable state: awaiting iff the transcript timer is armed, a deferred item iff its timer is armed, a pending turn has the end-of-turn timer of that very turn armed, responseActive iff a response is active |
| SessionRuns.OldTimerIsHarmless | internal/session/session.go:338-340 | An end-of-turn timer armed in an earlier turn does nothing when it fires but be spent |
| SessionRuns.CommitLeavesTimer | internal/session/session.go:797-818 | A client commit of a turn waiting for its timer closes the turn and leaves that timer armed, so such timers occur |
| SessionRuns.ModelSeesTheConversation | internal/session/session.go:1121-1141 | The messages a started pipeline is given expand to the items of the conversation that say something, in order, at most one call each |
| Transcripts.FinalReachesModel | internal/session/session.go:953-1018 | After any run, a final completes its item's transcript with all finals heard since the last transcript, this one included, joined in order by single spaces, blanks dropped: the client is told exactly that text, the item keeps it, the response that waits for it or was deferred to it is started with it among what the model is shown as the user's, and a blank one creates no response |
| Transcripts.EndOfTurnReachesModel | internal/session/session.go:981-984 | The same for the recognizer's end of turn, with the finals heard until then |
| Transcripts.TimeoutReachesModel | internal/session/session.go:1020-1036 | After any run, when the wait for a transcript is over, the response goes ahead with all finals joined and the last partial behind them as what the model is shown, or fails with the timeout error if that is nothing |
| Transcripts.DeferralReachesModel | internal/session/session.go:905-928 | After any run, when a deferred response has waited long enough it is created and started with all that was heard, unless that is blank, its item is gone or a response is active: then nothing is emitted |
| Transcripts.RunIsHeard | internal/session/session.go:963-1018 | After any run the accumulated transcript is the join of the finals heard since the last one was completed, the partial is the latest since the last final, and the voice is locked if and only if audio of a running response was delivered |
| Gateway.StepKeeps | internal/session/session.go:301-346 | One step of actor, stage or outside world keeps: pipeline log == facts taken in + facts queued, actor progress == fold of the facts taken in, untruncated items fit for truncation |
| Gateway.FreshIsAddressed | internal/session/session.go:1162-1167 | The fact at the head of the queue, if fresh, is about the active response |
| Gateway.StageKeeps | internal/session/pipeline.go:62-259 | A stage step leaves the actor alone and keeps the system invariant, whichever pipeline it belongs to |
| Gateway.DeliverKeeps | internal/session/session.go:1162-1241 | Taking the next fact off the queue keeps the system invariant, whether stale, absorbed or final |
| Gateway.TruncatedIsSeen | internal/session/session.go:699-731 | The parse marks the open message truncated only if an item_truncated for it was emitted |
| Grammar.ResponsesAreSerial | internal/session/session.go:1304-1359 | In a legal trace refs strictly increase, a response is created only after the previous one's done, and nothing about a response follows its done |
| Grammar.LegalPrefix | internal/session/session.go:401-406 | Every prefix of a legal trace is legal |
| Traces.DeltasFollowTheirItem | internal/session/session.go:1246-1259 | In a legal trace every delta is about the open response and its message item, added before it |
| Traces.DoneSaysTheDeltas | internal/session/session.go:1304-1329 | In a legal trace the finished message item's text is the concatenation of its response's deltas and its audio is their bytes at 48 a millisecond, unless it was truncated |
| Traces.CallsAreContiguous | internal/session/session.go:1265-1277 | In a legal trace a call's added is followed immediately by its arguments and its completed done |
| Traces.AtMostOneOfEach | internal/session/session.go:1246-1277 | In a legal trace a response has at most one call and at most one message item |
| Grammar.CallParses | internal/session/session.go:1265-1277 | The three events of a delivered call take a streaming response back to streaming, with its one call spent |
| Grammar.DoneParses | internal/session/session.go:1304-1340 | Stream dones, item done and response done close a response that has a message item, if the item says what the deltas said |
| ActorInvariants.OnCommandKeeps | internal/session/session.go:540-584 | Every command keeps the response, item and timer invariants and leaves untruncated items, earlier launches and the running response's record intact |
| ActorInvariants.OnAudioKeeps | internal/session/session.go:735-792 | So does every audio frame |
| ActorInvariants.OnAsrKeeps | internal/session/session.go:963-1018 | So does every recognizer event, including the release of a waiting response |
| ActorInvariants.OnTranscriptTimeoutKeeps | internal/session/session.go:1020-1036 | So does the transcript timer when it is armed |
| ActorInvariants.OnEndOfTurnTimerKeeps | internal/session/session.go:338-340 | So does the end-of-turn timer |
| ActorInvariants.OnDeferredTimeoutKeeps | internal/session/session.go:905-928 | So does the deferred trigger's timer |
| ActorInvariants.StartResponseKeeps | internal/session/session.go:1054-1119 | Creating a response keeps the invariants and, if its pipeline starts, launches a fresh generation for it |
| ActorInvariants.FinishKeeps | internal/session/session.go:1304-1359 | Finishing closes the response legally, disarms its wait and keeps every item |
| ActorInvariants.CommitKeeps | internal/session/session.go:821-856 | A commit keeps the invariants, touches neither turn nor turn number, and when it succeeds an item is pending |
| ActorInvariants.CleanupCloses | internal/session/session.go:422-463 | Ending the session closes the open response and leaves no timer armed |
| PipeInvariants.OnPipeEventKeeps | internal/session/session.go:1162-1285 | A stale fact changes nothing; a fresh one is absorbed exactly (its text, bytes, segments and flags, no more) or ends the response |
| PipeInvariants.CompletionKeeps | internal/session/response.go:76-84 | A done fact ends the response exactly when every flag its modality requires is then set |
| ProviderRuns.NothingIsChanged | internal/session/pipeline.go:62-259 | Over any schedule of the stages, what a pipeline has sent the actor is, in order, exactly what its providers gave: text, calls, finish, whole samples, alignment, reported failures |
| ProviderRuns.SpeechBeginsOnce | internal/session/pipeline.go:141-157 | Over any schedule the start of speech is told at most once and before any audio or alignment |
| ProviderRuns.SentenceTaken | internal/session/pipeline.go:141-169 | A sentence is synthesized unless the response is text only or it is blank, and the first that is announces the speech |
| Commands.CallTells | internal/session/session.go:1265-1277 | The first call of a response joins the end of the conversation and is told whole, name, id and arguments in place; a second one changes nothing |
| PipeInvariants.EnsureInPlace | internal/session/session.go:1246-1259 | The message item is announced before it is used, and only once |
| PipeInvariants.CallDelivered | internal/session/session.go:1265-1277 | A call's item joins the conversation under a new ref and the client is told all of it at once |
| Commands.CreateItemTells | internal/session/session.go:633-682 | A client's item is created complete in its own words, or as the one output of a call, put exactly where it was asked to go and told behind what it follows, or refused with one error, at most a ref used up |
| Commands.DeleteItemTells | internal/session/session.go:684-697 | The item is cut out of list and index and its transcript no longer waited for, or refused: not there, or being written |
| Commands.TruncateItemTells | internal/session/session.go:699-731 | Only an assistant's spoken item is cut, only inside its audio; its audio ends there, its text is trimmed to it, all else stays |
| Commands.UpdateSessionTells | internal/session/session.go:586-631 | Settings are taken whole or not at all: another voice is refused once there was audio; new turn detection starts a fresh detector and turn, with the active response kept |
| Commands.ClearAudioTells | internal/session/session.go:547-555 | Audio, marks, detector state, open turn, timer and reserved item are forgotten, the timeline goes on, everything else stays |
| Commands.CreateResponseTells | internal/session/session.go:562-569 | Refused while a response is active, else created as asked for |
| Commands.AudioFails | internal/session/session.go:735-746 | Audio over the cap, or that the recognizer refuses, ends the session with one fatal error |
| Pipelines.ActKeeps | internal/session/pipeline.go:62-259 | No step of the three stages, in any order, breaks the pipeline invariant: text reaches the actor before the sentencer, sentences ahead tile what the sentencer took in, segments sent tile text and audio |
| Pipelines.LlmTextKeeps | internal/session/pipeline.go:71-91 | A delta goes to the actor before it is handed to the sentencer |
| Pipelines.TakeChunkKeeps | internal/session/pipeline.go:118-124 | Splitting a chunk continues the tiling and ends sentences between runes |
| Pipelines.ReportKeeps | internal/session/pipeline.go:158-163 | A segment reported continues the tiling, inside text and audio already sent |
| Pipelines.EndOfSentencesKeeps | internal/session/pipeline.go:165-165 | TTS reports done only when, no stage stopped, segments cover all text and audio |
| Pipelines.StopKeeps | internal/session/pipeline.go:44-51 | A stage that stops because its context is done weakens the log's contract only by what completeness needs |
| PipeLog.SegmentsTile | internal/session/pipeline.go:141-166 | The segments of a coherent log tile text and audio from 0 and lie inside what was sent before |
| PipeLog.SegmentsFit | internal/session/pipeline.go:141-166 | When no stage was stopped they also end between runes, which is all truncation needs |
| PipeLog.NothingFollows | internal/session/pipeline.go:62-166 | No text follows the LLM's done, no audio or segment follows TTS's done |
| PipeLog.SilentWithoutText | internal/session/pipeline.go:229-259 | A pipeline that said nothing makes no sound and reports no segment |
| PipeLog.TtsDoneCovers | internal/session/pipeline.go:141-166 | When TTS is done and no stage was stopped, segments cover all text and all audio |
| Sessions.Session.constructor | internal/session/session.go:142-190 | A new session is the state every run starts from, and in order |
| Sessions.Session.HandleCommand | internal/session/session.go:540-584 | A valid session stays valid and its trace legal, going on from what was emitted, whatever the command; the new state is the one the run theorems speak of |
| Sessions.Session.HandleAudio | internal/session/session.go:735-792 | The same for an audio frame of any size, overflow and push failure included |
| Sessions.Session.HandleAsr | internal/session/session.go:963-989 | The same for every recognizer event |
| Sessions.Session.HandleResponseEvent | internal/session/session.go:1162-1241 | The same for a pipeline fact, provided a fresh one names the active response, which is what every reachable queue guarantees |
| Sessions.Session.TranscriptTimeout | internal/session/session.go:1020-1036 | The same when the armed transcript timer fires |
| Sessions.Session.EndOfTurnTimer | internal/session/session.go:338-340 | The same when the end-of-turn timer fires |
| Sessions.Session.DeferredTimeout | internal/session/session.go:905-928 | The same when the deferred trigger's timer fires |
| Sessions.Session.Cleanup | internal/session/session.go:422-463 | From any valid session: every response is closed on the wire and no timer is armed |
| ServeSession.Serve | internal/session/session.go:301-346 | The object driven through any schedule of inputs, deliveries and stage steps, then cleaned up: its fields are those of the reached system, its trace is closed, nothing is active or armed |
| ServeSession.ServeOne | internal/session/session.go:301-346 | One choice of the loop takes the object where the system goes, and keeps the system invariant |
| Arrival.Inbox.Loop | internal/session/session.go:301-396 | At every loop head of a live session the numbers handled are exactly 1..k in order and at most one stash is occupied; a cancelled drain still leaves them increasing; every schedule of posts and cancellations |
| Arrival.Inbox.DrainAudioBefore | internal/session/session.go:360-377 | Every frame posted before the command is handled, in order, unless the session is cancelled; it terminates however fast frames arrive |
| Arrival.Inbox.DrainCommandsBefore | internal/session/session.go:379-396 | The same for commands before a frame |
| Arrival.Inbox.RunCommand | internal/session/session.go:349-352 | A command is handled after everything posted before it |
| Arrival.Inbox.RunAudio | internal/session/session.go:355-358 | A frame is handled after everything posted before it |
| Arrival.Inbox.Turn | internal/session/session.go:301-346 | One turn of the loop keeps the merge exact, whichever queue select picks |
| Arrival.Inbox.Post | internal/session/session.go:228-241 | A command is numbered and queued, or refused once the session is closed |
| Arrival.Inbox.PostAudio | internal/session/session.go:246-259 | A full audio queue closes the session and drops nothing silently |
| Arrival.Inbox.CommandIsNext | internal/session/session.go:360-377 | The command with the smaller head number is the next entry to handle |
| Arrival.Inbox.FrameIsNext | internal/session/session.go:379-396 | The frame with the smaller head number is the next entry to handle |
| SpeechRuns.AgreementIsExact | internal/session/session.go:735-856 | For any run: detector, turn machine, buffer and reserved item agree after every step if and only if no append of the run brings a commit with misleading events behind it |
| SpeechEvents.AudioKeepsExactly | internal/session/session.go:735-792 | For an append of any size: they agree afterwards if and only if no commit inside it leaves events over that end in speech or mark a start more than the prefix ahead |
| SpeechEvents.LostSpeech | internal/session/session.go:757-792 | Where they do not, for every such append: no audio is held, the detector is silent while the turn says what it said before, and the start is marked ahead of all audio by its offset less the prefix |
| PanicFree.NothingPanics | internal/session/session.go:540-856 | No run slices out of range anywhere, in commits inside or outside appends or in truncates, if no append loses the speech, the LLM's deltas are valid text and no item is truncated twice |
| PanicFree.HandlerInBounds | internal/session/session.go:301-346 | While detector, turn, buffer and reserved item agree, no handler but a truncate can slice out of range, an append that loses the speech included |
| SessionTexts.TextsStayValid | internal/session/session.go:1168-1191 | After any run whose LLM deltas are valid, so is the text of every item that can be truncated and was not |
| SpeechLost.LostCommitPanics | internal/session/buffer.go:75-94 | When any appends follow in which nothing is heard, the next commit slices out of range if and only if they hold audio and the left-over start lies later than the prefix by more than their milliseconds |
| SpeechLost.NextEventFinds | internal/session/session.go:735-792 | The next append in which something is heard brings everything back into agreement if and only if it does not lose the speech in turn; either way the commit behind it is in bounds |
| SpeechLost.CommitPanics | internal/session/buffer.go:75-94 | With any marks, a commit slices out of range exactly when there is audio and the start is marked ahead of it |
| SpeechLost.ItHappens | internal/session/session.go:735-792 | A run in which it does: speech, a silent frame and speech again in one append, one sample more, and a client commit |
| SpeechEvents.SmallAppendLosesNothing | internal/vad/vad.go:101-128 | An append of at most one frame leaves nothing over |
| SpeechRuns.SmallAppendsLoseNothing | internal/session/session.go:735-792 | So neither does a run whose appends are at most one frame each |
| SpeechEvents.EndFields | internal/session/turn.go:121-180 | Exactly which speech ends commit: all under server_vad, under semantic_vad those with a terminal final waiting |
| SpeechRuns.SpeechAgreesEverywhere | internal/session/session.go:735-856 | After every run in which nothing is lost: detector speaking iff turn speaking; then audio held, segment marked, item reserved; commits slice in bounds; every speech_stopped answers the latest speech_started and names its item |
| SpeechRuns.EndIsNeverClamped | internal/session/buffer.go:63-70 | After every such run the clamp of a speech end in the next append never bites, even after a turn_detection change |
| SpeechRuns.AudioFollowsPath | internal/session/session.go:735-792 | One append moves buffer and detector exactly one step along the path on which trimming is unobservable, with a commit behind it if its last event ends the turn |
| SpeechRuns.OutsideFollowsPath | internal/session/session.go:797-856 | A turn decision from outside leaves that path alone or commits on it |
| AudioRuns.IdleAudioIsNeverMissed | internal/session/session.go:735-856 | Over any stretch of a run from a moment at which nothing is held, without a change of turn_detection or an append that commits before its last event: buffer and detector are where appending exactly the stretch's audio takes them; a buffer that never trims shows the same marks and marked commits and agrees in the end; committed spans are ordered and disjoint; idle audio held is bounded |
| AudioRuns.SpansAreOrdered | internal/session/buffer.go:51-104 | The spans committed along a path of appends, detector events, commits and clears are ordered, disjoint and exact, with idle audio dropped in between |
| SpeechState.CommandKeeps | internal/session/session.go:540-584 | Every command keeps detector, turn, buffer and reserved item in agreement, including a commit during speech and a change of turn detection |
| SpeechState.CommitRestores | internal/session/session.go:821-856 | A commit after the turn was reset brings the detector back into agreement, because a speaking detector means there is audio |
| EnergyDetector.Energy.Process | internal/vad/vad.go:101-128 | The loop reports the events and leaves the state of the specification's drain |
| EnergyDetector.Energy.Reset | internal/vad/vad.go:93-98 | State as new, thresholds kept |
| Vad.EventsAreFounded | internal/vad/vad.go:101-128 | For any stream: every start reported is the start of a frame that reaches the enter level, every end the end of a loud frame |
| Vad.Hysteresis | internal/vad/vad.go:112-121 | While no frame reaches the enter level a silent detector reports nothing and stays silent; while every frame reaches the exit level open speech stays open |
| Vad.FirstLoudFrameOpens | internal/vad/vad.go:112-115 | The first frame that reaches the enter level is reported at once, at its own start |
| Vad.SilenceHeardOutCloses | internal/vad/vad.go:118-121 | Open speech closes with the frame at which the silence behind it has been heard out, where its last loud frame ended |
| Vad.NewDetectorLevels | internal/vad/vad.go:79-90 | A new detector opens on a constant wave of a tenth of the threshold and is held open by six tenths of that |
| Audio.ConstantLevel | internal/vad/vad.go:131-142 | A constant wave reaches a threshold exactly when its samples reach that share of full scale |
| Audio.SampleIsLittleEndian | internal/vad/vad.go:131-142 | Samples are read as sixteen bits, two's complement, low byte first |
| Vad.AnyChunking | internal/vad/vad.go:101-128 | However a stream is cut into calls, final state and events are those of one call |
| Vad.ChunkingIsUnobservable | internal/vad/vad.go:101-128 | The same for two calls from any state |
| Vad.OutputIsWellPaced | internal/vad/vad.go:101-128 | Starts and ends alternate, offsets are frame boundaries, an end is reported only after silenceMs past its offset and no start precedes the report of the previous end |
| Vad.ReportsAreTheEvents | internal/vad/vad.go:101-128 | The timed reports the pacing is stated on are exactly the events Process returns |
| Vad.SpeakingIsJustified | internal/vad/vad.go:114-121 | A speaking detector's last loud frame ends at lastVoiced, everything after is below the exit level, and less than silenceMs of it |
| InputAudio.InputAudioBuffer.Append | internal/session/buffer.go:35-41 | Over the cap nothing is taken |
| InputAudio.InputAudioBuffer.MarkSpeechStart | internal/session/buffer.go:51-59 | Rolled back by the prefix, never before the held audio |
| InputAudio.InputAudioBuffer.MarkSpeechEnd | internal/session/buffer.go:63-70 | Advanced by the silence, never past the held audio |
| InputAudio.InputAudioBuffer.Commit | internal/session/buffer.go:75-94 | The slice and the cleared buffer, or a slice out of range, exactly when the specification says; never the latter under the invariant, and then 48 bytes for each reported millisecond |
| InputAudio.InputAudioBuffer.Clear | internal/session/buffer.go:98-104 | The timeline goes on from the current position |
| InputAudio.InputAudioBuffer.TrimIdle | internal/session/buffer.go:112-124 | Idle audio older than keepMs goes, a marked segment stays |
| InputBuffer.CommitIsExact | internal/session/buffer.go:75-94 | Commit's slice bounds are ordered and inside the held audio, 48 bytes for each reported millisecond |
| InputBuffer.SpeechIsCommitted | internal/session/buffer.go:49-94 | A turn commits the audio from the prefix padding before the detected start to the silence behind the detected end, clipped to what is held; an end not behind the start is ignored, and an unmarked end is the last whole millisecond |
| InputBuffer.CommitTakes | internal/session/buffer.go:75-94 | From the start mark, or the first held millisecond, to an end mark behind it, or the last whole millisecond |
| InputBuffer.SpansAreOrdered | internal/session/buffer.go:35-104 | Over any run committed spans are disjoint, in order and exact |
| InputBuffer.TimelineTracksAudio | internal/session/buffer.go:35-104 | After n clears or commits the timeline is never ahead of the appended audio and lags it by at most n ms |
| IdleTrim.TrimmingIsUnobservable | internal/session/buffer.go:106-124 | Every run of appends of any size, commits and clears shows the client the marks and commits of a buffer that never trims, and leaves the two in agreement |
| IdleTrim.IdleAudioIsBounded | internal/session/buffer.go:106-124 | Over every run, the audio held while nothing is marked stays under prefix + 21 ms |
| IdleTrim.EventFacts | internal/vad/vad.go:101-128 | The events of an append of any size alternate, its starts lie in the audio it completes, each end is heard out, and the detector's clock accounts for every byte |
| IdleTrim.OneFrame | internal/vad/vad.go:101-128 | An append of at most a frame yields at most one event |
| IdleTrim.StepAgrees | internal/session/buffer.go:51-124 | One step keeps trimmed and untrimmed buffer in agreement and equally observable |
| TurnManagement.TurnManager.Step | internal/session/turn.go:100-186 | The method with its helpers decides and moves as the specification's step |
| TurnManagement.TurnManager.EndTurn | internal/session/turn.go:172-180 | Commits, and triggers at once or on the transcript depending on the mode |
| TurnManagement.TurnManager.Judge | internal/session/turn.go:164-170 | A terminal final ends the turn, any other arms the timer |
| Turns.TurnEndsAnswer | internal/session/turn.go:100-186 | For every state and input: what commits; a turn's end triggers at once in server_vad and on the transcript in semantic_vad, exactly when turns are to be answered; a speech start interrupts exactly when it may and a response is active |
| Turns.TurnsWait | internal/session/turn.go:121-170 | Exactly which inputs arm the wait for a final and which the wait for more |
| Turns.SemanticTurnEnds | internal/session/turn.go:115-170 | A whole semantic_vad turn, with any finals during and after the speech, ends exactly once if the last one during it or one after it ends a sentence, and not at all otherwise |
| Turns.ManualTurnsNeverEnd | internal/session/turn.go:109-127 | Without turn detection no run of inputs ends a turn by itself |
| Turns.EndsSentenceMeans | internal/session/turn.go:188-199 | Spaces and closing quotes aside, a text ends a sentence exactly when its last rune is a terminator |
| Answers.SpokenTurnIsAnswered | internal/session/session.go:735-870 | After any run in which nothing is lost, with server_vad turns to be answered and no response active, an append that ends a turn emits one after the other: speech stopped, the commit and the item under the same ref, and the next response's created |
| Answers.SpeechInterrupts | internal/session/session.go:748-779 | In every reachable session an append that brings a speech start ends the active response as cancelled, turn detected, when responses may be interrupted |
| Answers.NothingElseIsAnswered | internal/session/session.go:797-818 | In every reachable session an append creates no response unless server_vad turns are to be answered |
| Answers.SemanticTurnIsDeferred | internal/session/session.go:859-870 | After any run in which nothing is lost, the timer that ends a semantic_vad turn commits its audio and defers the response to that very item's transcript, creating none before |
| Answers.SpeechStartTells | internal/session/session.go:748-779 | A speech start is announced where it is marked, under the item reserved for it, interrupts with the response closed as cancelled, or leaves it alone, and gives up a deferred response when it may interrupt |
| Answers.SpeechEndTells | internal/session/session.go:780-785 | A speech end is announced where it is marked, under its start's item, and carried out as the turn asks: committed, answered, deferred or waited for |
| Answers.OutsideTells | internal/session/session.go:797-818 | So is what a final, the end of the turn or a client's commit asks for |
| Answers.TimerTells | internal/session/session.go:338-340 | So is what the end-of-turn timer asks for, the timer being spent |
| Answers.CommitTells | internal/session/session.go:821-856 | A commit of no audio is refused; any other puts at the end of the conversation, under the reserved ref, a user item with the transcript so far and a millisecond for every 48 bytes taken, announces it behind its predecessor, and reports a recognizer that fails |
| Answers.CreationTells | internal/session/session.go:1054-1119 | A response is refused for its voice or its overrides, or created under the next ref and either waits for the item just committed or is started with the whole conversation |
| Turns.TurnsAnswerSpeech | internal/session/turn.go:100-186 | Over any inputs no more turns end on their own than speech starts were heard |
| Turns.DecisionsAreCoherent | internal/session/turn.go:100-186 | A turn left pending has a timer asked for, a committed one leaves nothing pending, and trigger kinds and timer kinds exclude each other |
| SentenceRules.RunDecides | internal/session/sentencer.go:69-112 | Behind any plain text, a run of terminators and quotes ends a sentence at once if it holds a CJK terminator, else exactly when a space follows and no abbreviation precedes; undecided while nothing follows, else the scan goes on |
| SentenceRules.NewlineEnds | internal/session/sentencer.go:80-83 | The first newline behind plain text ends a sentence and belongs to it |
| SentenceRules.PlainHasNoEnd | internal/session/sentencer.go:69-112 | Plain text has no end, and is not scanned again |
| SentenceRules.AbbreviationMeans | internal/session/sentencer.go:120-138 | The letters right before make an abbreviation exactly when they are one letter or a known title |
| SentenceRules.SixCharactersMakeASentence | internal/session/sentencer.go:38-46 | An ended sentence of six runes or more is handed on at once, a shorter one joined to the next |
| Sentences.StreamTiles | internal/session/sentencer.go:33-63 | For any text and chunking the sentences tile the text by byte offset, and all but the flushed one have six runes |
| Sentences.PushTiles | internal/session/sentencer.go:33-47 | One push continues the tiling from where the splitter stood |
| SentenceStreams.StreamIsBatch | internal/session/sentencer.go:33-112 | For any chunks: the stream's sentences are those of a splitter that sees the whole text and keeps no scan position if and only if no cut between chunks shows, that is, ends in a CJK run that goes on and whose sentence has ended too early or will be missed |
| SentenceStreams.EveryChunkingAgrees | internal/session/sentencer.go:33-112 | For any text: all its chunkings give the batch splitter's sentences if and only if no cut of it shows |
| SentenceStreams.CutShows | internal/session/sentencer.go:33-112 | From any splitter state, one more cut changes the sentences if and only if it shows |
| SentenceStreams.ShowsForGood | internal/session/sentencer.go:33-112 | However the rest is cut, nothing makes up for a cut that shows |
| SentenceStreams.EndedTooEarly | internal/session/sentencer.go:69-112 | Six runes or more before a cut inside such a run: the stream ends a sentence there and the whole text does not |
| SentenceStreams.EndedTooLate | internal/session/sentencer.go:38-46 | Fewer, and six only with the rest of the run, which ends nothing by itself: the whole text has an end there that the stream misses |
| SentenceCuts.OneCut | internal/session/sentencer.go:33-112 | Splitting what is held before more arrives changes nothing if and only if it does not show |
| SentenceCjk.ChunkingIsUnobservable | internal/session/sentencer.go:33-112 | A condition on the text alone: if every CJK terminator ends its run of terminators and quotes, any two chunkings give the same sentences, those of the batch splitter |
| SentenceCjk.ShowingNeedsCjk | internal/session/sentencer.go:96-99 | A cut can only show behind a CJK terminator whose run goes on |
| SentenceCjk.QuoteComesTooLate | internal/session/sentencer.go:96-99 | Any text of five letters or more, a full stop U+3002 and, in the next chunk, a closing quote: the sentences differ from those of one chunk |
| SentenceCjk.QuoteIsMissed | internal/session/sentencer.go:38-46 | The same with four letters and ASCII text behind the quote, where the end is missed instead |
| SentenceBoundaries.PushIsSettled | internal/session/sentencer.go:69-112 | Sentences end between runes of the whole text, whatever comes after the chunk |
| Sentencing.Sentencer.FindBoundary | internal/session/sentencer.go:69-112 | The scan loop finds the specification's next end and leaves its scan position |
| Sentencing.Sentencer.Push | internal/session/sentencer.go:33-47 | The push loop returns the specification's sentences and terminates |
| Sentencing.Sentencer.Flush | internal/session/sentencer.go:50-55 | What is left, once |
| Sentencing.Sentencer.IsAbbreviationAt | internal/session/sentencer.go:120-138 | The backward letter loop decides as the specification |
| Truncation.TrimIsPrefix | internal/session/truncate.go:26-52 | Over all three tiers the result is a prefix ending between runes, and all of the text once the cut reaches the end |
| Truncation.TrimIsMonotone | internal/session/truncate.go:26-52 | A later cut never keeps less, in any tier and for alignment entries in any order |
| Truncation.AlignmentCutsThere | internal/session/truncate.go:54-66 | With alignment the text is cut right before the first character whose audio starts at the cut or later |
| Truncation.SegmentsKeepTheirShare | internal/session/truncate.go:68-88 | Every segment heard to its end is kept, none behind the cut, and of the one the cut falls into the whole runes of its proportional share; without segments the same of the whole text |
| Truncation.TrimByAlignmentLoop | internal/session/truncate.go:54-66 | The loop keeps the runes before the first one heard at or after the cut |
| Truncation.TrimBySegmentsLoop | internal/session/truncate.go:68-88 | The loop keeps whole segments and the straddling one's share, or slices out of range exactly when the specification says |
| Truncation.TrimTextNow | internal/session/truncate.go:38-52 | The choice between the tiers |
| Retruncation.HearingLostText | internal/session/truncate.go:68-88 | Whatever the text is, hearing some of a segment that ends past it slices out of range |
| Retruncation.TwoCutsLoseAtMostOneRune | internal/session/truncate.go:38-52 | With no segments, cutting at a and then at b < a keeps at most what cutting at b keeps and at least one rune less than it |
| Retruncation.SecondTruncate | internal/session/session.go:713-725 | With segments a second, earlier cut slices out of range if and only if it lies inside a segment whose text the first one shortened |
| TruncateTwice.NextTruncatePanics | internal/session/session.go:699-731 | After any truncates of an item, at any milliseconds, the next one goes out of range if and only if its cut lies inside a segment that lost text to them |
| TruncateTwice.AnyTruncate | internal/session/session.go:699-731 | A truncate with any arguments goes out of range exactly then, and leaves the item one that the same holds for |
| TruncateTwice.UncutIsTrimmable | internal/session/session.go:699-731 | In a reachable session every untruncated item with valid text is such an item |
| TruncateTwice.TruncateIsExact | internal/session/session.go:699-731 | In every reachable state, whatever was truncated and whatever output came behind it, a truncate goes out of range if and only if it hears some of a segment that ends past the text held, as long as that text is valid and segments that end inside it end between runes |
| Retruncation.TrimExactly | internal/session/truncate.go:38-88 | The same for trimText on any tiled segments, with alignment, empty and whole-response tiers |
| TruncateTwice.ItHappens | internal/session/session.go:699-731 | A reachable session, nothing wrong so far, in which the client's truncates at 15 ms and then at 14 ms go out of range |
| ConversationLists.ConversationList.Insert | internal/session/conversation.go:35-58 | List and index after an insertion, or a refusal that still uses up a ref |
| ConversationLists.ConversationList.Remove | internal/session/conversation.go:79-88 | List and index lose the ref together |
| ConversationLists.ConversationList.Messages | internal/session/conversation.go:113-136 | The loop builds the specification's replay |
| ConversationLists.ConversationList.Answered | internal/session/conversation.go:139-146 | True iff some tool output carries the call id |
| ConversationLists.ConversationList.Position | internal/session/conversation.go:65-72 | First index of the ref, or -1 |
| Conversations.EditsKeep | internal/session/conversation.go:28-88 | Under any insertions and removals, accepted or refused, list and index describe the same distinct refs |
| Conversations.RemoveUndoesInsert | internal/session/conversation.go:35-88 | Removing what was just inserted restores list and index |
| Conversations.InsertPlaces | internal/session/conversation.go:35-58 | An accepted item stands where it was asked to: first, last, or right behind the item named; the predecessor told is the one it stands behind; a refused one uses up a ref at most |
| Conversations.RemoveCutsOut | internal/session/conversation.go:79-88 | A removed item leaves the others in their order |
| Conversations.ReplayIsFaithful | internal/session/conversation.go:113-136 | Expanding the messages gives back the items that say something, in order; no message has two calls, and a call is with the assistant message it follows |
| AsrWriter.AudioOnlyInsideTasks | internal/provider/qwen/asr.go:393-402 | Every frame is written between its task's task-started and its finish-task, with only audio and silence between |
| AsrWriter.NoEmptyFinish | internal/provider/qwen/asr.go:360-366 | No finish-task is sent for a task that holds neither audio nor silence |
| AsrWriter.LedgerBalances | internal/provider/qwen/asr.go:378-387 | Ended tasks and the current one together account for every frame written |
| AsrWriter.AsrStream.PushAudio | internal/provider/qwen/asr.go:247-257 | Queued in order, or refused when the queue is full; frames written so far plus frames queued stay equal to frames pushed |
| AsrWriter.AsrStream.constructor | internal/provider/qwen/asr.go:389-391 | The first run-task is sent before anything else |
| AsrWriter.AsrStream.BeginFinalize | internal/provider/qwen/asr.go:346-377 | Flushes the queue with whatever is pushed meanwhile, then finish-task, or for an empty task end of turn at once; nothing pushed is left unwritten |
| AsrWriter.AsrStream.Loop | internal/provider/qwen/asr.go:379-476 | For any schedule of turns, pushes and requests: what crossed the socket is proper, frames written and frames queued are the frames pushed, in order, and baseMs plus sentMs is the audio written |
| AsrWriter.AsrStream.Turn | internal/provider/qwen/asr.go:379-476 | One turn of the loop, whatever its select picks, keeps the writer's invariant |
| AsrWriter.AsrStream.World | internal/provider/qwen/asr.go:247-279 | What callers push and ask between two steps keeps it too |
| AsrWriter.AsrStream.Restart | internal/provider/qwen/asr.go:378-387 | baseMs grows by the ended task's audio; a new run-task is sent |
| AsrWriter.AsrStream.OnStarted | internal/provider/qwen/asr.go:417-422 | A finalize that came too early is honoured now |
| AsrWriter.AsrStream.OnFinished | internal/provider/qwen/asr.go:423-426 | Its audio moves to baseMs and another run-task is sent |
| AsrWriter.AsrStream.OnFinalize | internal/provider/qwen/asr.go:431-441 | Coalesced while ending, remembered while starting, else carried out |
| AsrWriter.AsrStream.OnDeadline | internal/provider/qwen/asr.go:443-455 | A synthesized end of turn and a fresh task |
| AsrWriter.AsrStream.OnAudio | internal/provider/qwen/asr.go:457-460 | The oldest queued frame, only while a task runs |
| AsrWriter.AsrStream.OnKeepAlive | internal/provider/qwen/asr.go:462-473 | One silent frame, recorded where it was inserted |
| AsrWriter.AsrStream.EmitSentence | internal/provider/qwen/asr.go:597-616 | Result offsets on the pushed timeline, absent ones where the recognition task began, inside the current task's audio and in order |
| AsrTimeline.Unpad | internal/provider/qwen/asr.go:621-635 | The loop with its running shift computes the mapping |
| AsrTimeline.UnpadIsMonotone | internal/provider/qwen/asr.go:618-635 | Monotone, never stretching an interval, and inside the pushed audio, for every gap list the writer can build |
| AsrTimeline.UnpadInvertsInsertion | internal/provider/qwen/asr.go:618-635 | Every instant of every frame of a task maps back: pushed audio to its own instant, silence to where it was inserted, adjacent gaps included |
| AsrTimeline.GapsAreOrdered | internal/provider/qwen/asr.go:462-473 | The writer's gap list is in order, without overlap, and adds up to the padding |
| SilenceGate.Gate.Push | internal/provider/openai/realtime_tts.go:179-199 | Over any slicing the bytes forwarded are those the declarative filter keeps up to the last speech, and at most 15 frames are held |
| SilenceGate.Gate.Finish | internal/provider/openai/realtime_tts.go:204-211 | With finish the segment's output is exactly the frames the filter keeps: speech, last 3 of the lead, first 15 of a pause, first 5 of the tail, nothing without speech |
| SilenceGate.LoudForwards | internal/provider/openai/realtime_tts.go:184-188 | A speech frame releases exactly the silence the filter keeps before it |
| SilenceGate.QuietWaits | internal/provider/openai/realtime_tts.go:189-194 | A silent frame forwards nothing and is held, rotated in, or dropped |
| SilenceGate.KeptMeans | internal/provider/openai/realtime_tts.go:48-57 | Speech is kept, and silence only for 3 frames before the first speech, 15 into a pause and 5 behind the last speech, told without the gate's own search |
| SilenceGate.ConstantIsLoud | internal/provider/openai/realtime_tts.go:156-221 | A constant wave is loud exactly when its samples reach 200 |
| SilenceGate.EndKeepsTail | internal/provider/openai/realtime_tts.go:204-211 | At the end the first 5 held frames are kept if there was speech, none otherwise |
| SilenceGate.FramesAppend | internal/provider/openai/realtime_tts.go:179-183 | Cutting into frames does not depend on how the stream is sliced |
| Utf8.EncodeIsPrefix | internal/session/truncate.go:54-66 | Re-encoding the first n runes of valid text gives a prefix of it that ends between runes |
| Utf8.FullRuneMeans | internal/session/sentencer.go:73-75 | What the splitter waits for: bytes are held back exactly when more bytes may still make them the encoding of one rune |
| Utf8.RunesOfEncoded | internal/session/truncate.go:54-66 | Decoding what was encoded gives back every sequence of scalar values |
| Audio.SumOfSquares | internal/vad/vad.go:131-142 | The loop behind the level of a frame |

## Left out

- Network and process code, protocol decoding and rendering, configuration, administration: I/O and field-by-field checks.
- Telemetry, logging, recorder, timestamps, tags, token accounting, instructions, tools and voice settings beyond the voice lock: they do not influence what is modelled.
- Incremental TTS providers (`ttsIncremental`): one stream for the whole response, which records no segments.
- Provider adapters: tool-call reassembly, SSE reading, sockets; a provider is any source of deltas, calls, audio and failures.
- Float rounding in the detector's level and in `trimBySegments`: levels are compared as exact sums of squares, proportions as exact quotients.
- Negative `CharIndex` values from a provider: character indices are natural numbers.
- Completion.EveryResponseCanEnd: the channels between stages and to the actor are unbounded here, so it does not say that their capacities suffice; all other theorems are about safety, where capacities only remove schedules.
- DashScope frames that arrive late after a finalize timeout, failed socket writes, and Close: the writer's environment answers each run-task once and each finish-task once.
- Reader and writer of the DashScope stream sharing `gaps` under a mutex: results are mapped in the state the writer is in.
- AudioRuns.IdleAudioIsNeverMissed: a change of turn_detection in the middle of held audio starts a new detector on the old timeline, and a stretch ends there; it also ends at an append that commits before its last event, whose effect is `SpeechEvents.AudioKeepsExactly` and `SpeechEvents.LostSpeech`.
- TruncateTwice.TruncateIsExact: for text that is not valid, or whose segments end inside a rune because output followed a truncate, re-encoding may also lengthen the share of a segment; the condition is then still sufficient (`Retruncation.HearingLostText`), but not shown necessary.
- Arrival.Inbox.Loop: receives from the recognizer, response queue and timers are not among its choices, because they do not touch the two inbound queues.
- Sessions.Session: buffer, detector, turn machine and conversation are held as values here; their own objects are proved against the same specification functions in modules of their own, so aliasing between session and parts is not modelled.
- SessionRuns.CompletionLosesNothing: coverage by segments is stated for sessions that are not closing; in a closing one a stopped sentencer may let TTS report done early.
- SessionRuns.FirstTruncateIsSafe: assumes that the accumulated text is valid UTF-8, which `SessionTexts.TextsStayValid` derives from valid LLM deltas; an adapter that decodes JSON produces no others.
