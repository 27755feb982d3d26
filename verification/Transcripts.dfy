// What the recognizer has said, and where it goes
// (internal/session/session.go:953-1040).
module Transcripts {
  import opened Audio
  import opened Utf8
  import opened Conversations
  import opened Events
  import opened Grammar
  import opened Actor
  import opened ActorInvariants
  import opened Pipelines
  import opened Gateway
  import opened SessionRuns
  import opened Outcomes
  import Answers
  import InputBuffer
  import Truncation
  import Turns
  import Vad

  // ---- joining -------------------------------------------------------------------------------------------

  const SPACE: Text := [0x20]

  // The texts that say something.
  function Words(texts: seq<Text>): seq<Text> {
    if texts == [] then [] else (if texts[0] == [] then [] else [texts[0]]) + Words(texts[1..])
  }

  // One after the other, a space between two.
  function Spaced(words: seq<Text>): Text {
    if words == [] then [] else if |words| == 1 then words[0] else words[0] + SPACE + Spaced(words[1..])
  }

  // What a run of finals amounts to.
  function Joined(texts: seq<Text>): Text {
    Spaced(Words(texts))
  }

  lemma {:induction false} WordsSnoc(texts: seq<Text>, text: Text)
    ensures Words(texts + [text]) == Words(texts) + (if text == [] then [] else [text])
    decreases |texts|
  {
    if texts == [] {
      assert (texts + [text])[1..] == [];
    } else {
      assert (texts + [text])[1..] == texts[1..] + [text];
      WordsSnoc(texts[1..], text);
    }
  }

  lemma {:induction false} WordsSpeak(texts: seq<Text>)
    ensures forall i :: 0 <= i < |Words(texts)| ==> Words(texts)[i] != []
  {
    if texts != [] { WordsSpeak(texts[1..]); }
  }

  lemma {:induction false} SpacedSnoc(words: seq<Text>, word: Text)
    requires words != []
    ensures Spaced(words + [word]) == Spaced(words) + SPACE + word
    decreases |words|
  {
    assert (words + [word])[1..] == words[1..] + [word];
    if |words| == 1 {
      assert words[1..] + [word] == [word];
    } else {
      SpacedSnoc(words[1..], word);
      assert words[0] + SPACE + (Spaced(words[1..]) + SPACE + word)
             == words[0] + SPACE + Spaced(words[1..]) + SPACE + word;
    }
  }

  // One more text is appended as the actor appends it.
  lemma JoinedSnoc(texts: seq<Text>, text: Text)
    ensures Joined(texts + [text]) == JoinTranscript(Joined(texts), text)
  {
    WordsSnoc(texts, text);
    WordsSpeak(texts);
    var words := Words(texts);
    if text == [] {
      assert words + [] == words;
    } else if words == [] {
      assert words + [text] == [text];
    } else {
      SpacedSnoc(words, text);
      SpacedSpeaks(words);
    }
  }

  lemma SpacedSpeaks(words: seq<Text>)
    requires words != [] && words[0] != []
    ensures Spaced(words) != []
  {
  }

  // ---- what has been heard --------------------------------------------------------------------------------

  // The finals since the last transcript was completed, and the partial since the
  // last final.
  datatype Heard = Heard(finals: seq<Text>, partial: Text)

  const SILENCE: Heard := Heard([], [])

  // What has been heard once input is handled in st: a final completes the pending
  // item's transcript, if there is one, and so does the end of the turn.
  function Hearing(st: State, h: Heard, input: Input): Heard {
    match input
    case GotAsr(AsrPartial(text), _) => h.(partial := text)
    case GotAsr(AsrFinal(text), _) => Heard(if HasPending(st) then [] else h.finals + [text], [])
    case GotAsr(AsrEndOfTurn, _) => if HasPending(st) then h.(finals := []) else h
    case _ => h
  }

  ghost function HeardIn(s: System, isLetter: Rune -> bool, steps: seq<Step>, h: Heard): Heard
    requires MayRun(s, isLetter, steps)
    decreases |steps|
  {
    if steps == [] then h
    else
      HeardIn(Take(s, isLetter, steps[0]), isLetter, steps[1..],
              if steps[0].Handle? then Hearing(s.actor, h, steps[0].input) else h)
  }

  // The actor keeps exactly that.
  predicate Keeps(st: State, h: Heard) {
    st.transcriptAcc == Joined(h.finals) && st.partial == h.partial
  }

  // ---- steps that hear nothing ------------------------------------------------------------------------------

  // Nothing has been heard from the recognizer, and nothing of a voice emitted.
  predicate SameWords(st: State, st': State) {
    st'.transcriptAcc == st.transcriptAcc && st'.partial == st.partial && st'.audioEmitted == st.audioEmitted
  }

  lemma FinishIsDeaf(st: State, status: ResponseStatus, reason: StatusReason)
    requires st.active.Some?
    ensures SameWords(st, FinishResponse(st, status, reason))
  {
    hide CloseEvents;
    hide Turns.Step;
    hide Output;
  }

  lemma StartIsDeaf(st: State, ov: Overrides)
    ensures SameWords(st, StartResponse(st, ov))
  {
    hide MessagesOf;
    hide Turns.Step;
  }

  lemma LaunchIsDeaf(st: State)
    requires st.active.Some?
    ensures SameWords(st, StartPipeline(st))
  {
    hide MessagesOf;
  }

  lemma CommitIsDeaf(st: State, io: Io)
    ensures SameWords(st, Commit(st, io).st)
  {
    hide AppendItem;
    hide Vad.Reset;
  }

  lemma DecisionIsDeaf(st: State, d: Turns.Decision, io: Io)
    ensures SameWords(st, ApplyDecision(st, d, io))
  {
    hide Commit;
    hide StartResponse;
    var st1 := Armed(st, d);
    CommitIsDeaf(st1, io);
    var c := Commit(st1, io);
    StartIsDeaf(st1, NO_OVERRIDES);
    StartIsDeaf(c.st, NO_OVERRIDES);
    StartIsDeaf(DeferTrigger(c.st), NO_OVERRIDES);
  }

  lemma InputIsDeaf(st: State, input: Turns.TurnInput, io: Io)
    ensures SameWords(st, StepAndApply(st, input, io))
  {
    hide ApplyDecision;
    hide Turns.Step;
    DecisionIsDeaf(Stepped(st, input), Turns.Step(st.turn, input).1, io);
  }

  lemma InterruptIsDeaf(st: State, reason: StatusReason)
    ensures SameWords(st, Interrupt(st, reason))
  {
    hide FinishResponse;
    if st.active.Some? { FinishIsDeaf(st, ResponseCancelled, reason); }
  }

  lemma FailIsDeaf(st: State, code: ErrorCode)
    requires st.active.Some?
    ensures SameWords(st, FailResponse(st, code))
  {
    hide FinishResponse;
    FinishIsDeaf(EmitError(st, code), ResponseFailed, NoReason);
  }

  lemma MarkStartIsDeaf(st: State, offsetMs: nat)
    ensures SameWords(st, ReserveSpeechItem(st)) && SameWords(st, MarkStart(st, offsetMs))
  {
    hide Turns.Step;
  }

  lemma MarkEndIsDeaf(st: State, offsetMs: nat)
    ensures SameWords(st, MarkEnd(st, offsetMs))
  {
    hide Turns.Step;
  }

  lemma SpeechStartIsDeaf(st: State, offsetMs: nat, io: Io)
    ensures SameWords(st, OnSpeechStart(st, offsetMs, io))
  {
    hide ApplyDecision;
    hide Interrupt;
    hide ReserveSpeechItem;
    hide MarkStart;
    hide Turns.Step;
    var st1 := ReserveSpeechItem(st);
    MarkStartIsDeaf(st, offsetMs);
    MarkStartIsDeaf(st1, offsetMs);
    var d := Turns.Step(st1.turn, Turns.VadSpeechStart).1;
    var st2 := MarkStart(st1, offsetMs);
    var startMs := InputBuffer.SpeechStartMs(st1.buffer, offsetMs, st1.cfg.turnDetection.prefixMs);
    var st3 := if d.emitSpeechStarted then Emit(st2, SpeechStarted(startMs, st2.speechItem)) else st2;
    InterruptIsDeaf(st3, TurnDetected);
    var st4 := if d.interrupt then Interrupt(st3, TurnDetected) else st3;
    DecisionIsDeaf(st4, d, io);
    DecisionIsDeaf(DropDeferred(st4), d, io);
  }

  lemma SpeechEndIsDeaf(st: State, offsetMs: nat, io: Io)
    ensures SameWords(st, OnSpeechEnd(st, offsetMs, io))
  {
    hide ApplyDecision;
    hide MarkEnd;
    hide Turns.Step;
    var endMs := InputBuffer.SpeechEndMs(st.buffer, offsetMs, st.cfg.turnDetection.silenceMs);
    var d := Turns.Step(st.turn, Turns.VadSpeechEnd).1;
    var st1 := MarkEnd(st, offsetMs);
    MarkEndIsDeaf(st, offsetMs);
    DecisionIsDeaf(st1, d, io);
    DecisionIsDeaf(Emit(st1, SpeechStopped(endMs, st1.speechItem)), d, io);
  }

  lemma {:induction false} EventsAreDeaf(st: State, evs: seq<Vad.VadEvent>, io: Io)
    ensures SameWords(st, OnVadEvents(st, evs, io))
    decreases |evs|
  {
    hide OnSpeechStart;
    hide OnSpeechEnd;
    if evs != [] {
      SpeechStartIsDeaf(st, evs[0].offsetMs, io);
      SpeechEndIsDeaf(st, evs[0].offsetMs, io);
      EventsAreDeaf(if evs[0].SpeechStart? then OnSpeechStart(st, evs[0].offsetMs, io)
                    else OnSpeechEnd(st, evs[0].offsetMs, io), evs[1..], io);
    }
  }

  lemma AudioIsDeaf(st: State, pcm: Bytes, io: Io)
    ensures SameWords(st, OnAudio(st, pcm, io))
  {
    hide OnVadEvents;
    hide Vad.Process;
    if st.detector.Some? {
      var (d, evs) := Vad.Process(st.detector.value, pcm);
      EventsAreDeaf(st.(buffer := InputBuffer.Append(st.buffer, pcm), detector := Some(d)), evs, io);
    }
  }

  lemma SettingsAreDeaf(st: State, p: SessionPatch)
    ensures SameWords(st, OnUpdateSession(st, p))
  {
  }

  lemma ClearIsDeaf(st: State)
    ensures SameWords(st, OnClearAudio(st))
  {
    hide Vad.Reset;
  }

  lemma CreationIsDeaf(st: State, spec: ItemSpec, place: Place)
    ensures SameWords(st, OnCreateItem(st, spec, place))
  {
    hide Insert;
    hide ClientItem;
  }

  lemma EmissionIsDeaf(st: State, e: Event)
    ensures SameWords(st, Emit(st, e))
  {
  }

  lemma DeletionIsDeaf(st: State, ref: ItemRef)
    ensures SameWords(st, OnDeleteItem(st, ref))
  {
    hide Remove;
    hide Emit;
    EmissionIsDeaf(st, ErrorEvent(InvalidItem, false));
    EmissionIsDeaf(st, ErrorEvent(ItemNotFound, false));
    EmissionIsDeaf(Without(st, ref), ItemDeleted(ref));
  }

  lemma TruncationIsDeaf(st: State, ref: ItemRef, contentIndex: int, audioEndMs: int)
    ensures SameWords(st, OnTruncateItem(st, ref, contentIndex, audioEndMs))
  {
    hide Truncation.TrimText;
    hide EmitError;
    ErrorIsDeaf(st, ItemNotFound);
    ErrorIsDeaf(st, ItemNotTruncatable);
    ErrorIsDeaf(st, InvalidItem);
    ErrorIsDeaf(st, TruncateOutOfRange);
  }

  lemma ErrorIsDeaf(st: State, code: ErrorCode)
    ensures SameWords(st, EmitError(st, code))
  {
  }

  lemma CommandIsDeaf(st: State, cmd: Command, io: Io)
    ensures SameWords(st, OnCommand(st, cmd, io))
  {
    hide OnUpdateSession;
    hide OnClearAudio;
    hide OnCreateItem;
    hide OnDeleteItem;
    hide OnTruncateItem;
    hide StepAndApply;
    hide StartResponse;
    hide Interrupt;
    hide Turns.Step;
    match cmd
    case UpdateSession(patch) => SettingsAreDeaf(st, patch);
    case CommitAudio => InputIsDeaf(st, Turns.ClientCommit, io);
    case ClearAudio => ClearIsDeaf(st);
    case CreateItem(spec, place) => CreationIsDeaf(st, spec, place);
    case DeleteItem(ref) => DeletionIsDeaf(st, ref);
    case TruncateItem(ref, i, ms) => TruncationIsDeaf(st, ref, i, ms);
    case CreateResponse(ov) => StartIsDeaf(st.(turn := Turns.Step(st.turn, Turns.ClientCreateResponse).0), ov);
    case CancelResponse(_) => InterruptIsDeaf(st, ClientCancelled);
    case CloseSession =>
  }

  lemma TranscriptTimerIsDeaf(st: State)
    ensures SameWords(st, OnTranscriptTimeout(st))
  {
    hide FailResponse;
    hide StartPipeline;
    var st0 := StopAsrWait(st);
    if st0.active.Some? {
      FailIsDeaf(st0, TranscriptTimeout);
      LaunchIsDeaf(WithPendingText(st0, JoinTranscript(st.transcriptAcc, st.partial)));
    }
  }

  lemma DeferTimerIsDeaf(st: State)
    ensures SameWords(st, OnDeferredTimeout(st))
  {
    hide StartPipeline;
    hide StartResponse;
    hide Blank;
    var st2 := WithPendingText(DropDeferred(st), JoinTranscript(st.transcriptAcc, st.partial));
    StartIsDeaf(st2, NO_OVERRIDES);
    var st3 := StartResponse(st2, NO_OVERRIDES);
    if st3.active.Some? { LaunchIsDeaf(StopAsrWait(st3)); }
  }

  // The fact is audio of the running response.
  predicate Sounds(st: State, ev: PipeEvent) {
    Fresh(st, ev) && ev.PipeAudioDelta?
  }

  lemma DeltasAreDeaf(st: State, textOnly: bool, resp: ResponseRef, delta: Text, pcm: Bytes)
    requires st.active.Some?
    ensures SameWords(st, AddText(st, textOnly, resp, delta))
    ensures SameWords(st.(audioEmitted := true), AddAudio(st, resp, pcm))
  {
    hide EnsureOutputItem;
  }

  lemma RecordsAreDeaf(st: State, call: ToolCall, timings: seq<CharTiming>, seg: Segment)
    requires st.active.Some?
    ensures SameWords(st, DeliverToolCall(st, call))
    ensures SameWords(st, AddAlignment(st, timings))
    ensures SameWords(st, AddSegment(st, seg))
  {
    hide AppendItem;
    hide CallEvents;
  }

  lemma CompletionIsDeaf(st: State, r: Response)
    ensures SameWords(st, MaybeComplete(st.(active := Some(r))))
  {
    hide FinishResponse;
    hide Actor.Done;
    var st1 := st.(active := Some(r));
    FinishIsDeaf(st1, Outcome(r).0, Outcome(r).1);
  }

  lemma FactIsDeaf(st: State, ev: PipeEvent)
    ensures SameWords(st.(audioEmitted := st.audioEmitted || Sounds(st, ev)), OnPipeEvent(st, ev))
  {
    hide AddText;
    hide AddAudio;
    hide DeliverToolCall;
    hide AddAlignment;
    hide AddSegment;
    hide MaybeComplete;
    hide FailResponse;
    if Fresh(st, ev) {
      var r := st.active.value;
      match ev
      case PipeTextDelta(_, resp, delta) => DeltasAreDeaf(st, true, resp, delta, []);
      case PipeTranscriptDelta(_, resp, delta) => DeltasAreDeaf(st, false, resp, delta, []);
      case PipeAudioDelta(_, resp, pcm) => DeltasAreDeaf(st, false, resp, [], pcm);
      case PipeToolCall(_, call) => RecordsAreDeaf(st, call, [], Segment(0, 0, 0, 0));
      case PipeTtsStart(_) =>
      case PipeAlignment(_, timings) => RecordsAreDeaf(st, ToolCall([], [], []), timings, Segment(0, 0, 0, 0));
      case PipeSegment(_, seg) => RecordsAreDeaf(st, ToolCall([], [], []), [], seg);
      case PipeLlmDone(_, finish) => CompletionIsDeaf(st, r.(llmDone := true, finish := finish));
      case PipeTtsDone(_) => CompletionIsDeaf(st, r.(ttsDone := true, audioFlushed := true));
      case PipeError(_, _) => FailIsDeaf(st, ProviderError);
    }
  }

  // ---- steps that hear something -------------------------------------------------------------------------------

  lemma ResolvingIsDeaf(st: State, ref: ItemRef, text: Text)
    ensures SameWords(st, ResolveDeferred(st, ref, text))
  {
    hide StartResponse;
    hide Blank;
    StartIsDeaf(DropDeferred(st), NO_OVERRIDES);
  }

  // A completed transcript is forgotten.
  lemma CompletingForgets(st: State, text: Text, delta: Text)
    requires HasPending(st)
    ensures SameWords(st.(transcriptAcc := []), CompletePending(st, text, delta))
  {
    hide StartPipeline;
    hide ResolveDeferred;
    hide Transcribed;
    var st1 := Transcribed(st, text, delta);
    TranscribedForgets(st, text, delta);
    if st1.active.Some? { LaunchIsDeaf(StopAsrWait(st1)); }
    ResolvingIsDeaf(st1, st.pendingItem, text);
    if st1.active.Some? { ResolvingIsDeaf(StartPipeline(StopAsrWait(st1)), st.pendingItem, text); }
  }

  lemma TranscribedForgets(st: State, text: Text, delta: Text)
    requires HasPending(st)
    ensures SameWords(st.(transcriptAcc := []), Transcribed(st, text, delta))
  {
  }

  lemma AsrIsHeard(st: State, h: Heard, ev: AsrEvent, io: Io)
    requires Keeps(st, h)
    ensures Keeps(OnAsr(st, ev, io), Hearing(st, h, GotAsr(ev, io)))
    ensures OnAsr(st, ev, io).audioEmitted == st.audioEmitted
  {
    hide StepAndApply;
    hide CompletePending;
    hide Joined;
    NothingJoins();
    match ev
    case AsrPartial(text) =>
    case AsrError =>
    case AsrFinal(text) =>
      JoinedSnoc(h.finals, text);
      var st0 := st.(partial := []);
      var joined := JoinTranscript(st0.transcriptAcc, text);
      if HasPending(st0) { CompletingForgets(st0, joined, text); }
      InputIsDeaf(if HasPending(st0) then CompletePending(st0, joined, text) else st0.(transcriptAcc := joined),
                  Turns.AsrFinal(text), io);
    case AsrEndOfTurn =>
      if HasPending(st) { CompletingForgets(st, st.transcriptAcc, []); }
      InputIsDeaf(if HasPending(st) then CompletePending(st, st.transcriptAcc, []) else st, Turns.AsrEndOfTurn, io);
  }

  lemma NothingJoins()
    ensures Joined([]) == []
  {
  }

  lemma InputIsHeard(st: State, h: Heard, input: Input)
    requires Keeps(st, h)
    ensures Keeps(Handled(st, input), Hearing(st, h, input))
    ensures Handled(st, input).audioEmitted == st.audioEmitted
  {
    hide OnCommand;
    hide OnAudio;
    hide OnAsr;
    hide OnTranscriptTimeout;
    hide OnEndOfTurnTimer;
    hide OnDeferredTimeout;
    hide Joined;
    match input
    case GotCommand(cmd, io) => CommandIsDeaf(st, cmd, io);
    case GotAudio(pcm, io) => AudioIsDeaf(st, pcm, io);
    case GotAsr(ev, io) => AsrIsHeard(st, h, ev, io);
    case TranscriptTimer => TranscriptTimerIsDeaf(st);
    case EndOfTurnTimer(io) => EndOfTurnTimerIsDeaf(st, io);
    case DeferTimer => DeferTimerIsDeaf(st);
  }

  lemma EndOfTurnTimerIsDeaf(st: State, io: Io)
    ensures SameWords(st, OnEndOfTurnTimer(st, io))
  {
    hide StepAndApply;
    InputIsDeaf(DisarmEndOfTurn(st), Turns.AsrEndOfTurn, io);
  }

  predicate StepSounds(s: System, step: Step) {
    step.Deliver? && s.queue != [] && Sounds(s.actor, s.queue[0])
  }

  // Some step of the run has delivered audio of the response it belongs to.
  ghost predicate SoundedIn(s: System, isLetter: Rune -> bool, steps: seq<Step>)
    requires MayRun(s, isLetter, steps)
    decreases |steps|
  {
    steps != [] && (StepSounds(s, steps[0]) || SoundedIn(Take(s, isLetter, steps[0]), isLetter, steps[1..]))
  }

  lemma StepIsHeard(s: System, isLetter: Rune -> bool, step: Step, h: Heard)
    requires MayStep(s, step) && Keeps(s.actor, h)
    ensures Keeps(Take(s, isLetter, step).actor, if step.Handle? then Hearing(s.actor, h, step.input) else h)
    ensures Take(s, isLetter, step).actor.audioEmitted == (s.actor.audioEmitted || StepSounds(s, step))
  {
    hide Handled;
    hide Hearing;
    hide OnPipeEvent;
    hide Act;
    hide Joined;
    match step
    case Handle(input) => InputIsHeard(s.actor, h, input);
    case Deliver => FactIsDeaf(s.actor, s.queue[0]);
    case Stage(_, _) =>
    case CloseOutside =>
  }

  // After any run the actor keeps exactly the finals heard since the last transcript
  // was completed, joined in order, and the partial behind them; and it knows whether
  // any audio has been emitted, which locks the voice.
  lemma {:induction false} RunIsHeard(s: System, isLetter: Rune -> bool, steps: seq<Step>, h: Heard)
    requires MayRun(s, isLetter, steps) && Keeps(s.actor, h)
    ensures Keeps(Run(s, isLetter, steps).actor, HeardIn(s, isLetter, steps, h))
    ensures Run(s, isLetter, steps).actor.audioEmitted == (s.actor.audioEmitted || SoundedIn(s, isLetter, steps))
    decreases |steps|
  {
    hide Take;
    hide MayStep;
    hide Hearing;
    hide Keeps;
    hide StepSounds;
    if steps != [] {
      StepIsHeard(s, isLetter, steps[0], h);
      RunIsHeard(Take(s, isLetter, steps[0]), isLetter, steps[1..],
                 if steps[0].Handle? then Hearing(s.actor, h, steps[0].input) else h);
    }
  }

  // ---- where it goes -----------------------------------------------------------------------------------------------

  // The pending item, finished: its transcript is text.
  function Finished(st: State, text: Text): ItemView
    requires HasPending(st)
  {
    st.conv.index[st.pendingItem].view.(text := text, transcriptDone := true, status := Completed)
  }

  // The client has been told text as the transcript of the pending item, with the
  // news in it first, if it wants transcripts at all; and the item keeps it.
  ghost predicate TranscriptTold(st: State, st': State, text: Text, news: Text)
    requires HasPending(st)
  {
    var ref := st.pendingItem;
    var transcript := (if news == [] then [] else [InputTranscriptDelta(ref, news)]) + [InputTranscriptDone(ref, text)];
    && st.trace + (if st.cfg.transcription then transcript else []) + [ItemDone(Finished(st, text))] <= st'.trace
    && ref in st'.conv.index && st'.conv.index[ref].view == Finished(st, text)
  }

  lemma TranscribedTells(st: State, text: Text, news: Text)
    requires HasPending(st) && ActorInv(st)
    ensures TranscriptTold(st, Transcribed(st, text, news), text, news)
  {
    hide ActorInv;
    PendingIsNamed(st);
  }

  lemma PendingIsNamed(st: State)
    requires ActorInv(st) && HasPending(st)
    ensures st.conv.index[st.pendingItem].view.ref == st.pendingItem
  {
    hide TimerInv;
  }

  lemma CompletedTells(st: State, text: Text, news: Text)
    requires HasPending(st) && ActorInv(st)
    ensures TranscriptTold(st, CompletePending(st, text, news), text, news)
  {
    hide ActorInv;
    hide Transcribed;
    hide Blank;
    hide StartPipeline;
    hide StartResponse;
    var st1 := Transcribed(st, text, news);
    TranscribedTells(st, text, news);
    if st1.active.Some? { LaunchTells(StopAsrWait(st1)); }
    StartsSayNoLess(DropDeferred(st1));
    if st1.active.Some? { StartsSayNoLess(DropDeferred(StartPipeline(StopAsrWait(st1)))); }
  }

  lemma LaunchTells(st: State)
    requires st.active.Some?
    ensures StartPipeline(st).trace == st.trace && StartPipeline(st).conv == st.conv
  {
    hide MessagesOf;
  }

  lemma StartsSayNoLess(st: State)
    ensures var st' := StartResponse(st, NO_OVERRIDES); st.trace <= st'.trace && st'.conv == st.conv
  {
    hide MessagesOf;
    hide Turns.Step;
  }

  // A commit puts an item of its own next to the others.
  lemma CommitKeepsItem(st: State, io: Io, ref: ItemRef)
    requires ActorInv(st) && ref in st.conv.index
    ensures var st' := Commit(st, io).st;
            st.trace <= st'.trace && ref in st'.conv.index && st'.conv.index[ref] == st.conv.index[ref]
  {
    hide ActorInv;
    hide Commit;
    hide Insert;
    if st.buffer.pcm == [] || !InputBuffer.Sliceable(st.buffer) {
      NothingTaken(st, io);
    } else {
      Answers.CommitShape(st, io);
      assert ItemsInv(st) by { ItemsOf(st); }
      AppendKeeps(st, Answers.Taken(st));
    }
  }

  lemma NothingTaken(st: State, io: Io)
    requires st.buffer.pcm == [] || !InputBuffer.Sliceable(st.buffer)
    ensures var st' := Commit(st, io).st; st.trace <= st'.trace && st'.conv == st.conv
  {
  }

  lemma DecisionKeepsItem(st: State, d: Turns.Decision, io: Io, ref: ItemRef)
    requires ActorInv(Armed(st, d)) && ref in st.conv.index
    ensures var st' := ApplyDecision(st, d, io);
            st.trace <= st'.trace && ref in st'.conv.index && st'.conv.index[ref] == st.conv.index[ref]
  {
    hide ActorInv;
    hide Commit;
    hide StartResponse;
    var st1 := Armed(st, d);
    CommitKeepsItem(st1, io, ref);
    var c := Commit(st1, io).st;
    StartsSayNoLess(st1);
    StartsSayNoLess(c);
    StartsSayNoLess(DeferTrigger(c));
  }

  lemma InputKeepsItem(st: State, input: Turns.TurnInput, io: Io, ref: ItemRef)
    requires ActorInv(st) && Outside(input) && ref in st.conv.index
    ensures var st' := StepAndApply(st, input, io);
            st.trace <= st'.trace && ref in st'.conv.index && st'.conv.index[ref] == st.conv.index[ref]
  {
    hide ActorInv;
    hide Good;
    hide ApplyDecision;
    hide Turns.Step;
    hide Armed;
    var d := Turns.Step(st.turn, input).1;
    ActorInvariants.StepKeeps(st, input);
    GoodHolds(st, Armed(Stepped(st, input), d));
    DecisionKeepsItem(Stepped(st, input), d, io, ref);
  }

  lemma GoodHolds(st: State, st': State)
    requires Good(st, st')
    ensures ActorInv(st')
  {
    hide ActorInv;
    hide Evolves;
  }

  // What a transcript that has just become final, text, brings about: the client is
  // told, a response that waits for it is started with it, one that was deferred to
  // it is created and started with it, unless it is blank: then there is none. No
  // other response is created or started for it.
  ghost predicate Delivered(st: State, st': State, text: Text, news: Text) {
    && (HasPending(st) ==> TranscriptTold(st, st', text, news))
    && (Waits(st) ==> ShownTo(st, st', st.active.value.ref, text))
    && (Defers(st) && !Blank(text) ==> ShownTo(st, st', st.nextResp + 1, text))
    && (!Waits(st) && !(Defers(st) && !Blank(text)) && HasPending(st) ==>
          st'.active == st.active && st'.nextResp == st.nextResp && st'.launches == st.launches)
  }

  // A final, or the end of the turn, as far as the transcript goes.
  lemma CompletionDelivers(st: State, text: Text, news: Text, input: Turns.TurnInput, io: Io)
    requires ActorInv(st) && HasPending(st) && (input.AsrFinal? || input.AsrEndOfTurn?)
    ensures Delivered(st, StepAndApply(CompletePending(st, text, news), input, io), text, news)
  {
    hide ActorInv;
    hide Good;
    hide CompletePending;
    hide StepAndApply;
    hide Blank;
    hide ShownTo;
    hide Finished;
    var st1 := CompletePending(st, text, news);
    var st2 := StepAndApply(st1, input, io);
    CompletePendingKeeps(st, text, news);
    GoodHolds(st, st1);
    CompletedTells(st, text, news);
    InputKeepsItem(st1, input, io, st.pendingItem);
    StepAndApplyKeeps(st1, input, io);
    if Waits(st) {
      WaitingIsShown(st, text, news);
      ShownStays(st, st, st1, st2, st.active.value.ref, text);
    }
    if Defers(st) && !Blank(text) {
      DeferredIsShown(st, text, news);
      ShownStays(st, st, st1, st2, st.nextResp + 1, text);
    }
    if !Waits(st) && !(Defers(st) && !Blank(text)) { NoneIsStarted(st, text, news, input, io); }
  }

  lemma NoneIsStarted(st: State, text: Text, news: Text, input: Turns.TurnInput, io: Io)
    requires ActorInv(st) && HasPending(st) && !Waits(st) && !(Defers(st) && !Blank(text))
    requires input.AsrFinal? || input.AsrEndOfTurn?
    ensures var st' := StepAndApply(CompletePending(st, text, news), input, io);
            st'.active == st.active && st'.nextResp == st.nextResp && st'.launches == st.launches
  {
    hide ActorInv;
    hide Good;
    hide Blank;
    hide Transcribed;
    hide StepAndApply;
    hide Turns.Step;
    hide StartResponse;
    hide StartPipeline;
    TranscribedText(st, text, news);
    var st1 := CompletePending(st, text, news);
    CompletePendingKeeps(st, text, news);
    GoodHolds(st, st1);
    InputCreatesNone(st1, input, io);
  }

  // Neither a final nor the end of the turn creates a response by itself.
  lemma InputCreatesNone(st: State, input: Turns.TurnInput, io: Io)
    requires ActorInv(st) && (input.AsrFinal? || input.AsrEndOfTurn?)
    ensures var st' := StepAndApply(st, input, io);
            st'.active == st.active && st'.nextResp == st.nextResp && st'.launches == st.launches
  {
    hide ActorInv;
    hide Turns.Step;
    hide Commit;
    hide StartResponse;
    TurnHolds(st);
    Turns.TurnEndsAnswer(st.turn, input);
    Answers.CommitLeaves(Stepped(st, input), io);
    Answers.CommitLeaves(ArmEndOfTurn(Stepped(st, input)), io);
    CommitLaunchesNone(Stepped(st, input), io);
    CommitLaunchesNone(ArmEndOfTurn(Stepped(st, input)), io);
  }

  lemma CommitLaunchesNone(st: State, io: Io)
    ensures Commit(st, io).st.launches == st.launches
  {
    hide AppendItem;
    hide Vad.Reset;
    hide InputBuffer.Clear;
    hide InputBuffer.Sliceable;
  }

  lemma TurnHolds(st: State)
    requires ActorInv(st)
    ensures Turns.TurnInv(st.turn)
  {
    hide ResponseInv;
  }

  // ---- runs ---------------------------------------------------------------------------------------------------------

  // After any run of a new session, a final completes the transcript of the item it is
  // heard for: all finals since the last transcript, this one included, joined in order.
  // The client is told exactly that, and exactly that is what the response that waits
  // for it, or was deferred to it, is shown.
  lemma FinalReachesModel(cfg: Config, bufferMaxMs: nat, isLetter: Rune -> bool, steps: seq<Step>, text: Text, io: Io)
    requires MayRun(NewSystem(cfg, bufferMaxMs), isLetter, steps)
    ensures var st := Run(NewSystem(cfg, bufferMaxMs), isLetter, steps).actor;
            var finals := HeardIn(NewSystem(cfg, bufferMaxMs), isLetter, steps, SILENCE).finals;
            Delivered(st, OnAsr(st, AsrFinal(text), io), Joined(finals + [text]), text)
  {
    hide ActorInv;
    hide SysInv;
    hide Joined;
    hide Delivered;
    RunHolds(cfg, bufferMaxMs, isLetter, steps);
    var st := Run(NewSystem(cfg, bufferMaxMs), isLetter, steps).actor;
    var finals := HeardIn(NewSystem(cfg, bufferMaxMs), isLetter, steps, SILENCE).finals;
    JoinedSnoc(finals, text);
    FinalDelivers(st, Joined(finals + [text]), text, io);
  }

  lemma RunHolds(cfg: Config, bufferMaxMs: nat, isLetter: Rune -> bool, steps: seq<Step>)
    requires MayRun(NewSystem(cfg, bufferMaxMs), isLetter, steps)
    ensures var s := Run(NewSystem(cfg, bufferMaxMs), isLetter, steps);
            ActorInv(s.actor) && Keeps(s.actor, HeardIn(NewSystem(cfg, bufferMaxMs), isLetter, steps, SILENCE))
  {
    hide ActorInv;
    hide SysInv;
    hide Joined;
    NewSystemInv(cfg, bufferMaxMs);
    NothingJoins();
    RunKeeps(NewSystem(cfg, bufferMaxMs), isLetter, steps);
    ActorHolds(Run(NewSystem(cfg, bufferMaxMs), isLetter, steps));
    RunIsHeard(NewSystem(cfg, bufferMaxMs), isLetter, steps, SILENCE);
  }

  lemma FinalDelivers(st: State, heard: Text, text: Text, io: Io)
    requires ActorInv(st) && heard == JoinTranscript(st.transcriptAcc, text)
    ensures Delivered(st, OnAsr(st, AsrFinal(text), io), heard, text)
  {
    hide ActorInv;
    hide Good;
    hide StepAndApply;
    hide CompletePending;
    hide Delivered;
    var st0 := st.(partial := []);
    TextAsideKeeps(st, st.transcriptAcc, []);
    GoodHolds(st, st0);
    if HasPending(st) {
      CompletionDelivers(st0, heard, text, Turns.AsrFinal(text), io);
      SamePending(st, st0, OnAsr(st, AsrFinal(text), io), heard, text);
    } else {
      NothingToDeliver(st, OnAsr(st, AsrFinal(text), io), heard, text);
    }
  }

  lemma SamePending(st: State, st0: State, st': State, text: Text, news: Text)
    requires st0 == st.(partial := []) && Delivered(st0, st', text, news)
    ensures Delivered(st, st', text, news)
  {
    hide ExpandAll;
  }

  lemma NothingToDeliver(st: State, st': State, text: Text, news: Text)
    requires !HasPending(st)
    ensures Delivered(st, st', text, news)
  {
  }

  // So does the recognizer's end of the turn, with the finals heard until then.
  lemma EndOfTurnReachesModel(cfg: Config, bufferMaxMs: nat, isLetter: Rune -> bool, steps: seq<Step>, io: Io)
    requires MayRun(NewSystem(cfg, bufferMaxMs), isLetter, steps)
    ensures var st := Run(NewSystem(cfg, bufferMaxMs), isLetter, steps).actor;
            var finals := HeardIn(NewSystem(cfg, bufferMaxMs), isLetter, steps, SILENCE).finals;
            Delivered(st, OnAsr(st, AsrEvent.AsrEndOfTurn, io), Joined(finals), [])
  {
    hide ActorInv;
    hide SysInv;
    hide Joined;
    hide Delivered;
    hide StepAndApply;
    hide CompletePending;
    RunHolds(cfg, bufferMaxMs, isLetter, steps);
    var st := Run(NewSystem(cfg, bufferMaxMs), isLetter, steps).actor;
    if HasPending(st) {
      CompletionDelivers(st, st.transcriptAcc, [], Turns.AsrEndOfTurn, io);
    } else {
      NothingToDeliver(st, OnAsr(st, AsrEvent.AsrEndOfTurn, io), st.transcriptAcc, []);
    }
  }

  // ---- when no final comes ------------------------------------------------------------------------------------------

  // The response that waited goes ahead with text, or fails for want of it.
  ghost predicate WaitOver(st: State, st': State, text: Text)
    requires st.active.Some?
  {
    if text == [] then
      DoneTold(Emit(st, ErrorEvent(TranscriptTimeout, false)), st', ResponseFailed, NoReason)
    else
      && st'.trace == st.trace && !st'.asrWait
      && st'.active.Some? && st'.active.value.ref == st.active.value.ref && !st'.active.value.awaiting
      && |st'.launches| == |st.launches| + 1
      && (HasPending(st) ==> ShownTo(st, st', st.active.value.ref, text))
  }

  lemma WaitFails(st: State)
    requires ActorInv(st) && st.asrWait && JoinTranscript(st.transcriptAcc, st.partial) == []
    ensures st.active.Some? && WaitOver(st, OnTranscriptTimeout(st), [])
  {
    hide ActorInv;
    hide FinishResponse;
    hide DoneTold;
    hide Good;
    hide JoinTranscript;
    WaitIsFor(st);
    ErrorKeeps(st, TranscriptTimeout);
    GoodHolds(st, EmitError(st, TranscriptTimeout));
    FinishTells(EmitError(st, TranscriptTimeout), ResponseFailed, NoReason);
    FinishIgnoresWait(st, TranscriptTimeout);
  }

  lemma WaitEnds(st: State, text: Text)
    requires ActorInv(st) && st.asrWait && text == JoinTranscript(st.transcriptAcc, st.partial) && text != []
    ensures st.active.Some? && WaitOver(st, OnTranscriptTimeout(st), text)
  {
    hide ActorInv;
    hide FailResponse;
    hide StartPipeline;
    hide ExpandAll;
    hide ItemsInv;
    hide Good;
    hide JoinTranscript;
    WaitIsFor(st);
    PendingTextKeeps(st, text);
    var st1 := StopAsrWait(WithPendingText(st, text));
    assert st1 == WithPendingText(StopAsrWait(st), text);
    GoodHolds(st, WithPendingText(st, text));
    ItemsOf(WithPendingText(st, text));
    StoppedItems(WithPendingText(st, text));
    Answers.StartTells(st1);
    if HasPending(st) {
      PendingIsSpoken(st);
      StartedIsShown(st1, st.pendingItem);
    } else {
      ModelSeesTheConversation(st1);
    }
  }

  lemma WaitIsFor(st: State)
    requires ActorInv(st) && st.asrWait
    ensures st.active.Some? && st.active.value.awaiting && st.active.value.status.ResponseInProgress?
  {
    hide ItemsInv;
  }

  lemma PendingIsSpoken(st: State)
    requires ActorInv(st) && HasPending(st)
    ensures var v := st.conv.index[st.pendingItem].view;
            v.ref == st.pendingItem && v.role.UserRole? && v.content.AudioContent?
  {
    hide TimerInv;
  }

  // After any run of a new session, when the response that waits for a transcript has
  // waited long enough, it goes ahead with all that has been heard, the last partial
  // included, and fails if that is nothing.
  lemma TimeoutReachesModel(cfg: Config, bufferMaxMs: nat, isLetter: Rune -> bool, steps: seq<Step>)
    requires MayRun(NewSystem(cfg, bufferMaxMs), isLetter, steps)
    ensures var st := Run(NewSystem(cfg, bufferMaxMs), isLetter, steps).actor;
            var heard := HeardIn(NewSystem(cfg, bufferMaxMs), isLetter, steps, SILENCE);
            st.asrWait ==>
              && st.active.Some?
              && WaitOver(st, OnTranscriptTimeout(st), Joined(heard.finals + [heard.partial]))
  {
    hide ActorInv;
    hide SysInv;
    hide Joined;
    hide WaitOver;
    hide OnTranscriptTimeout;
    RunHolds(cfg, bufferMaxMs, isLetter, steps);
    var st := Run(NewSystem(cfg, bufferMaxMs), isLetter, steps).actor;
    var heard := HeardIn(NewSystem(cfg, bufferMaxMs), isLetter, steps, SILENCE);
    JoinedSnoc(heard.finals, heard.partial);
    if st.asrWait {
      if Joined(heard.finals + [heard.partial]) == [] { WaitFails(st); }
      else { WaitEnds(st, Joined(heard.finals + [heard.partial])); }
    }
  }

  // A response that was deferred to a transcript is created and started with what has
  // been heard, unless that is blank, the item is no longer the one, or a response is
  // active: then it is forgotten, and nothing is said.
  ghost predicate DeferOver(st: State, st': State, text: Text) {
    if Defers(st) && !Blank(text) then
      && st'.trace == st.trace + [Event.ResponseCreated(st.nextResp + 1, st.cfg.textOnly)]
      && st'.active.Some? && !st'.active.value.awaiting && !st'.asrWait && st'.deferItem == 0
      && ShownTo(st, st', st.nextResp + 1, text)
    else
      st' == st.(deferItem := 0, deferWait := false)
  }

  // The deferred response, created with the text in place.
  lemma DeferralCreates(st: State, st2: State)
    requires ActorInv(st) && Defers(st) && st2 == DropDeferred(st).(conv := st2.conv)
    requires ActorInv(st2) && HasPending(st2) && st2.conv.index[st.pendingItem].view.content.AudioContent?
    ensures var st3 := StartResponse(st2, NO_OVERRIDES);
            && st3.active.Some? && st3.active.value.awaiting && ItemsInv(StopAsrWait(st3)) && st3.conv == st2.conv
            && st3.trace == st.trace + [Event.ResponseCreated(st.nextResp + 1, st.cfg.textOnly)]
            && st3.active.value.ref == st.nextResp + 1 && st3.deferItem == 0 && st3.launches == st.launches
  {
    hide ActorInv;
    hide StartResponse;
    hide ItemsInv;
    hide Good;
    ItemsOf(st2);
    Answers.PendingIsUndone(st2);
    Answers.CreationTells(st2, NO_OVERRIDES);
    StartResponseKeeps(st2, NO_OVERRIDES);
    var st3 := StartResponse(st2, NO_OVERRIDES);
    GoodHolds(st2, st3);
    ItemsOf(st3);
    StoppedItems(st3);
    CreationLeavesDefer(st2);
  }

  lemma DeferEnds(st: State, text: Text)
    requires ActorInv(st) && st.deferWait && text == JoinTranscript(st.transcriptAcc, st.partial)
    ensures DeferOver(st, OnDeferredTimeout(st), text)
  {
    hide ActorInv;
    hide StartPipeline;
    hide StartResponse;
    hide ExpandAll;
    hide ItemsInv;
    hide Blank;
    hide Good;
    hide JoinTranscript;
    DeferIsFor(st);
    if Defers(st) && !Blank(text) {
      var st1 := DropDeferred(st);
      var st2 := WithPendingText(st1, text);
      DeferKeeps(st);
      GoodHolds(st, st1);
      PendingTextKeeps(st1, text);
      GoodHolds(st1, st2);
      PendingIsSpoken(st1);
      DeferralCreates(st, st2);
      var st3 := StopAsrWait(StartResponse(st2, NO_OVERRIDES));
      StartedIsShown(st3, st.pendingItem);
      Answers.StartTells(st3);
      LaunchLeavesDefer(st3);
    }
  }

  lemma CreationLeavesDefer(st: State)
    ensures StartResponse(st, NO_OVERRIDES).deferItem == st.deferItem
  {
    hide StartPipeline;
    hide Turns.Step;
    LaunchLeavesDefer(Created(st, NewResponse(st.nextResp + 1, st.cfg.textOnly)));
  }

  lemma LaunchLeavesDefer(st: State)
    requires st.active.Some?
    ensures StartPipeline(st).deferItem == st.deferItem
  {
    hide MessagesOf;
  }

  lemma DeferIsFor(st: State)
    requires ActorInv(st) && st.deferWait
    ensures st.deferItem != 0
  {
    hide ResponseInv;
  }

  // After any run of a new session, when a deferred response has waited long enough.
  lemma DeferralReachesModel(cfg: Config, bufferMaxMs: nat, isLetter: Rune -> bool, steps: seq<Step>)
    requires MayRun(NewSystem(cfg, bufferMaxMs), isLetter, steps)
    ensures var st := Run(NewSystem(cfg, bufferMaxMs), isLetter, steps).actor;
            var heard := HeardIn(NewSystem(cfg, bufferMaxMs), isLetter, steps, SILENCE);
            st.deferWait ==> DeferOver(st, OnDeferredTimeout(st), Joined(heard.finals + [heard.partial]))
  {
    hide ActorInv;
    hide SysInv;
    hide Joined;
    hide DeferOver;
    hide OnDeferredTimeout;
    RunHolds(cfg, bufferMaxMs, isLetter, steps);
    var st := Run(NewSystem(cfg, bufferMaxMs), isLetter, steps).actor;
    var heard := HeardIn(NewSystem(cfg, bufferMaxMs), isLetter, steps, SILENCE);
    JoinedSnoc(heard.finals, heard.partial);
    if st.deferWait { DeferEnds(st, Joined(heard.finals + [heard.partial])); }
  }
}
