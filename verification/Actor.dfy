// The session actor as a function of its state: what each command, audio
// frame, recognizer event, pipeline fact and timer does
// (internal/session/session.go). Telemetry and timestamps are left out; a timer
// is the fact that it is armed.
module Actor {
  import opened Audio
  import opened Utf8
  import opened Conversations
  import opened Events
  import opened Grammar
  import Vad
  import InputBuffer
  import Turns
  import Truncation

  datatype Config = Config(
    turnDetection: Turns.TurnDetection,
    transcription: bool,
    textOnly: bool,
    voice: Text)

  datatype Response = Response(
    ref: ResponseRef,
    gen: Generation,
    status: ResponseStatus,
    awaiting: bool,
    llmDone: bool,
    ttsDone: bool,
    audioFlushed: bool,
    item: ItemRef,
    dependsOn: ItemRef,
    textOnly: bool,
    finish: Finish,
    spoke: bool,
    toolItem: ItemRef)

  // A pipeline the actor has started.
  datatype Launch = Launch(gen: Generation, resp: ResponseRef, textOnly: bool, messages: seq<Message>)

  // Outcomes of the calls into the recognizer.
  datatype Io = Io(pushOk: bool, finalizeOk: bool)

  // eot holds the number of the turn in which the end-of-turn timer was armed;
  // turnNo counts turns: speech opens one, a commit closes one. cancelled: the session context is done.
  // panicked: a slice went out of range; what follows in the model then stands for nothing.
  // trace: everything given to emit.
  datatype State = State(
    cfg: Config,
    buffer: InputBuffer.Buffer,
    detector: Option<Vad.Detector>,
    turn: Turns.Turn,
    conv: Conversation,
    active: Option<Response>,
    activeGen: Generation,
    nextResp: ResponseRef,
    audioEmitted: bool,
    speechItem: ItemRef,
    pendingItem: ItemRef,
    transcriptAcc: Text,
    partial: Text,
    asrWait: bool,
    eot: Option<nat>,
    deferItem: ItemRef,
    deferWait: bool,
    turnNo: nat,
    cancelled: bool,
    panicked: bool,
    launches: seq<Launch>,
    trace: seq<Event>)

  function NewDetector(td: Turns.TurnDetection): Option<Vad.Detector> {
    if td.mode.Manual? then None else Some(Vad.NewDetector(td.threshold, td.silenceMs))
  }

  function NewSession(cfg: Config, bufferMaxMs: nat): State {
    State(cfg, InputBuffer.NewBuffer(bufferMaxMs), NewDetector(cfg.turnDetection), Turns.NewTurn(cfg.turnDetection),
          Conversations.EMPTY, None, 0, 0, false, 0, 0, [], [], false, None, 0, false, 0, false, false, [], [])
  }

  // ---- emission ---------------------------------------------------------------------------

  function Emit(st: State, e: Event): State {
    st.(trace := st.trace + [e])
  }

  function EmitAll(st: State, es: seq<Event>): State {
    st.(trace := st.trace + es)
  }

  function EmitError(st: State, code: ErrorCode): State {
    Emit(st, ErrorEvent(code, false))
  }

  function Fatal(st: State, code: ErrorCode): State {
    Emit(st, ErrorEvent(code, true)).(cancelled := true)
  }

  // ---- timers -------------------------------------------------------------------------------

  function ArmEndOfTurn(st: State): State {
    st.(eot := Some(st.turnNo))
  }

  function DisarmEndOfTurn(st: State): State {
    st.(eot := None)
  }

  function DropDeferred(st: State): State {
    st.(deferWait := false, deferItem := 0)
  }

  function StopAsrWait(st: State): State {
    st.(asrWait := false)
  }

  // ---- responses ------------------------------------------------------------------------------

  // The committed item still waiting for its transcript.
  predicate HasPending(st: State) {
    st.pendingItem in st.conv.index
  }

  function StartPipeline(st: State): State
    requires st.active.Some?
  {
    var gen := st.activeGen + 1;
    var r := st.active.value.(awaiting := false, gen := gen);
    st.(active := Some(r), activeGen := gen,
        launches := st.launches + [Launch(gen, r.ref, r.textOnly, MessagesOf(Views(st.conv)))])
  }

  function NewResponse(ref: ResponseRef, textOnly: bool): Response {
    Response(ref, 0, ResponseInProgress, true, false, false, false, 0, 0, textOnly, FinishStop, false, 0)
  }

  function StartResponse(st: State, ov: Overrides): State {
    if ov.voice.Some? && ov.voice.value != st.cfg.voice && st.audioEmitted then EmitError(st, VoiceLocked)
    else if !ov.valid then EmitError(st, InvalidOverrides)
    else
      var r := NewResponse(st.nextResp + 1, Or(ov.textOnly, st.cfg.textOnly));
      var st1 := Created(st, r);
      if HasPending(st1) && !st1.conv.index[st1.pendingItem].view.transcriptDone then
        st1.(active := Some(r.(dependsOn := st1.pendingItem)), asrWait := true)
      else StartPipeline(st1)
  }

  function Created(st: State, r: Response): State {
    st.(nextResp := r.ref, active := Some(r), turn := Turns.Step(st.turn, Turns.ResponseStarted).0,
        trace := st.trace + [Event.ResponseCreated(r.ref, r.textOnly)])
  }

  // The message item in its terminal status.
  function Closed(it: Item, status: ResponseStatus): Item {
    it.(view := it.view.(status := if status.ResponseCompleted? then Completed else Incomplete))
  }

  function Output(c: Conversation, r: Response): seq<ItemView> {
    (if r.item in c.index then [c.index[r.item].view] else [])
    + (if r.toolItem in c.index then [c.index[r.toolItem].view] else [])
  }

  // Terminal events and generation bump.
  function FinishResponse(st: State, status: ResponseStatus, reason: StatusReason): State
    requires st.active.Some?
  {
    var r := st.active.value;
    if !r.status.ResponseInProgress? then st
    else
      var spoken := r.item in st.conv.index;
      var conv := if spoken then Update(st.conv, Closed(st.conv.index[r.item], status)) else st.conv;
      var closing := if spoken then CloseEvents(r.ref, r.textOnly, Closed(st.conv.index[r.item], status).view) else [];
      st.(asrWait := false, conv := conv, active := None, activeGen := st.activeGen + 1,
          turn := Turns.Step(st.turn, Turns.ResponseEnded).0,
          trace := st.trace + (closing + [ResponseDone(r.ref, status, reason, Output(conv, r))]))
  }

  // The message item of r in its terminal status, with its terminal events.
  function WithItemClosed(st: State, r: Response, status: ResponseStatus): State
    requires r.item in st.conv.index
  {
    var it := Closed(st.conv.index[r.item], status);
    st.(conv := Update(st.conv, it), trace := st.trace + CloseEvents(r.ref, r.textOnly, it.view))
  }

  // The response given up, with its last event.
  function Retired(st: State, done: Event): State {
    st.(asrWait := false, active := None, activeGen := st.activeGen + 1,
        turn := Turns.Step(st.turn, Turns.ResponseEnded).0, trace := st.trace + [done])
  }

  // Finishing, step by step.
  lemma FinishUnfolds(st: State, status: ResponseStatus, reason: StatusReason)
    requires st.active.Some?
    ensures st.active.value.status.ResponseInProgress? ==>
              var r := st.active.value;
              var closed := if r.item in st.conv.index then WithItemClosed(st, r, status) else st;
              FinishResponse(st, status, reason)
                == Retired(closed, ResponseDone(r.ref, status, reason, Output(closed.conv, r)))
    ensures !st.active.value.status.ResponseInProgress? ==> FinishResponse(st, status, reason) == st
  {
    hide Turns.Step;
    hide CloseEvents;
    hide Closed;
    hide Output;
  }

  function FailResponse(st: State, code: ErrorCode): State
    requires st.active.Some?
  {
    FinishResponse(EmitError(st, code), ResponseFailed, NoReason)
  }

  function Interrupt(st: State, reason: StatusReason): State {
    if st.active.None? then st else FinishResponse(st, ResponseCancelled, reason)
  }

  predicate Done(r: Response) {
    r.llmDone && (r.textOnly || !r.spoke || (r.ttsDone && r.audioFlushed))
  }

  function Outcome(r: Response): (ResponseStatus, StatusReason) {
    match r.finish
    case FinishLength => (ResponseIncomplete, MaxOutputTokens)
    case FinishContentFilter => (ResponseIncomplete, ContentFilter)
    case FinishStop => (ResponseCompleted, NoReason)
  }

  function MaybeComplete(st: State): State
    requires st.active.Some?
  {
    if !Done(st.active.value) then st
    else
      var (status, reason) := Outcome(st.active.value);
      FinishResponse(st, status, reason)
  }

  // ---- pipeline facts ---------------------------------------------------------------------------

  // The conversation and response with the message item in place, and the
  // event that announces it if it is new.
  datatype WithItem = WithItem(conv: Conversation, r: Response, added: seq<Event>)

  function EnsureOutputItem(c: Conversation, r: Response): (w: WithItem)
    ensures r.item in c.index ==> w == WithItem(c, r, [])
    ensures w.r.item in w.conv.index
  {
    if r.item in c.index then WithItem(c, r, [])
    else
      var view := ItemView(0, AssistantRole, if r.textOnly then TextContent else AudioContent,
                           InProgress, [], 0, true, [], []);
      var added := AppendItem(c, Item(view, [], [], 0));
      WithItem(added.conv, r.(item := added.item.view.ref), [OutputItemAdded(r.ref, added.item.view, added.previous)])
  }

  // The response's message item, when it exists.
  predicate HasOutput(st: State) {
    st.active.Some? && st.active.value.item in st.conv.index
  }

  function WithText(it: Item, delta: Text): Item {
    it.(view := it.view.(text := it.view.text + delta))
  }

  function WithAudio(it: Item, bytes: nat): Item {
    it.(audioBytes := it.audioBytes + bytes, view := it.view.(audioMs := BytesToMs(it.audioBytes + bytes)))
  }

  function TextDeltaEvent(textOnly: bool, resp: ResponseRef, item: ItemRef, delta: Text): Event {
    if textOnly then OutputTextDelta(resp, item, delta) else OutputTranscriptDelta(resp, item, delta)
  }

  // A text delta of either kind; textOnly tells which event carries it.
  function AddText(st: State, textOnly: bool, resp: ResponseRef, delta: Text): State
    requires st.active.Some?
  {
    var w := EnsureOutputItem(st.conv, st.active.value);
    st.(conv := Update(w.conv, WithText(w.conv.index[w.r.item], delta)),
        active := Some(w.r.(spoke := true)),
        trace := st.trace + (w.added + [TextDeltaEvent(textOnly, resp, w.r.item, delta)]))
  }

  function AddAudio(st: State, resp: ResponseRef, pcm: Bytes): State
    requires st.active.Some?
  {
    var w := EnsureOutputItem(st.conv, st.active.value);
    st.(conv := Update(w.conv, WithAudio(w.conv.index[w.r.item], |pcm|)),
        active := Some(w.r),
        audioEmitted := true,
        trace := st.trace + (w.added + [OutputAudioDelta(resp, w.r.item, pcm)]))
  }

  function AddSegment(st: State, seg: Segment): State
    requires st.active.Some?
  {
    if !HasOutput(st) then st
    else
      var it := st.conv.index[st.active.value.item];
      st.(conv := Update(st.conv, it.(segments := it.segments + [seg])))
  }

  function AddAlignment(st: State, timings: seq<CharTiming>): State
    requires st.active.Some?
  {
    if !HasOutput(st) then st
    else
      var it := st.conv.index[st.active.value.item];
      st.(conv := Update(st.conv, it.(alignment := it.alignment + timings)))
  }

  // A complete call, delivered at once; a second one is ignored.
  function DeliverToolCall(st: State, call: ToolCall): State
    requires st.active.Some?
  {
    var r := st.active.value;
    if r.toolItem != 0 then st
    else
      var view := ItemView(0, NoRole, ToolCallContent, InProgress, call.arguments, 0, true, call.name, call.id);
      var added := AppendItem(st.conv, Item(view, [], [], 0));
      var it := added.item;
      st.(conv := Update(added.conv, it.(view := it.view.(status := Completed))),
          active := Some(r.(toolItem := it.view.ref)),
          trace := st.trace + CallEvents(r.ref, it.view, added.previous))
  }

  // Whether the actor listens to ev at all.
  predicate Fresh(st: State, ev: PipeEvent) {
    st.active.Some? && !st.active.value.awaiting && ev.gen == st.activeGen
  }

  function OnPipeEvent(st: State, ev: PipeEvent): State {
    if !Fresh(st, ev) then st
    else
      var r := st.active.value;
      match ev
      case PipeTextDelta(_, resp, delta) => AddText(st, true, resp, delta)
      case PipeTranscriptDelta(_, resp, delta) => AddText(st, false, resp, delta)
      case PipeAudioDelta(_, resp, pcm) => AddAudio(st, resp, pcm)
      case PipeToolCall(_, call) => DeliverToolCall(st, call)
      case PipeTtsStart(_) => st
      case PipeAlignment(_, timings) => AddAlignment(st, timings)
      case PipeSegment(_, seg) => AddSegment(st, seg)
      case PipeLlmDone(_, finish) => MaybeComplete(st.(active := Some(r.(llmDone := true, finish := finish))))
      case PipeTtsDone(_) => MaybeComplete(st.(active := Some(r.(ttsDone := true, audioFlushed := true))))
      case PipeError(_, _) => FailResponse(st, ProviderError)
  }

  // ---- turns -------------------------------------------------------------------------------------

  function DeferTrigger(st: State): State {
    if st.pendingItem == 0 then st else st.(deferItem := st.pendingItem, deferWait := true)
  }

  // commit(); ok reports whether an item was committed and Finalize accepted.
  datatype Committed = Committed(st: State, ok: bool)

  function Commit(st: State, io: Io): Committed {
    if st.buffer.pcm == [] then Committed(EmitError(st, BufferEmpty), false)
    else if !InputBuffer.Sliceable(st.buffer) then Committed(st.(panicked := true), false)
    else
      var lengthMs := InputBuffer.CommitEndMs(st.buffer) - InputBuffer.CommitStartMs(st.buffer);
      var detector := if st.detector.Some? then Some(Vad.Reset(st.detector.value)) else None;
      var view := ItemView(st.speechItem, UserRole, AudioContent, InProgress, st.transcriptAcc,
                           lengthMs, false, [], []);
      var added := AppendItem(st.conv, Item(view, [], [], 0));
      var it := added.item;
      var st1 := st.(buffer := InputBuffer.Clear(st.buffer), detector := detector, speechItem := 0,
                     conv := added.conv, pendingItem := it.view.ref,
                     trace := st.trace + [AudioBufferCommitted(it.view.ref, added.previous),
                                          ItemAdded(it.view, added.previous)]);
      if io.finalizeOk then Committed(st1, true) else Committed(Fatal(st1, ProviderError), false)
  }

  // apply(): the commit, trigger and timer parts of a decision.
  function ApplyDecision(st: State, d: Turns.Decision, io: Io): State {
    var st1 := if d.armEndOfTurn || d.armFinalWait then ArmEndOfTurn(st) else st;
    var st2 := if d.commit then
                 var c := Commit(st1, io);
                 if c.ok && d.deferTrigger then DeferTrigger(c.st) else c.st
               else st1;
    if d.trigger && st2.active.None? then StartResponse(st2, NO_OVERRIDES) else st2
  }

  // The turn machine takes an input.
  function Stepped(st: State, input: Turns.TurnInput): State {
    var (t, d) := Turns.Step(st.turn, input);
    st.(turn := t, turnNo := if d.commit || d.emitSpeechStarted then st.turnNo + 1 else st.turnNo)
  }

  function StepAndApply(st: State, input: Turns.TurnInput, io: Io): State {
    ApplyDecision(Stepped(st, input), Turns.Step(st.turn, input).1, io)
  }

  // ---- audio ------------------------------------------------------------------------------------

  function ReserveSpeechItem(st: State): State {
    if st.speechItem != 0 then st
    else
      var (c, ref) := NewRef(st.conv);
      st.(conv := c, speechItem := ref)
  }

  // Marks the start, disarms the end-of-turn timer and opens a turn.
  function MarkStart(st: State, offsetMs: nat): State {
    Stepped(DisarmEndOfTurn(st.(buffer := InputBuffer.MarkSpeechStart(st.buffer, offsetMs,
                                                                      st.cfg.turnDetection.prefixMs))),
            Turns.VadSpeechStart)
  }

  function OnSpeechStart(st: State, offsetMs: nat, io: Io): State {
    var st1 := ReserveSpeechItem(st);
    var startMs := InputBuffer.SpeechStartMs(st1.buffer, offsetMs, st1.cfg.turnDetection.prefixMs);
    var d := Turns.Step(st1.turn, Turns.VadSpeechStart).1;
    var st2 := MarkStart(st1, offsetMs);
    var st3 := if d.emitSpeechStarted then Emit(st2, SpeechStarted(startMs, st2.speechItem)) else st2;
    var st4 := if d.interrupt then Interrupt(st3, TurnDetected) else st3;
    var st5 := if d.emitSpeechStarted && st4.turn.interruptResponse && st4.deferItem != 0 then DropDeferred(st4)
               else st4;
    ApplyDecision(st5, d, io)
  }

  // Marks the end and closes the speech segment.
  function MarkEnd(st: State, offsetMs: nat): State {
    Stepped(st.(buffer := InputBuffer.MarkSpeechEnd(st.buffer, offsetMs, st.cfg.turnDetection.silenceMs)),
            Turns.VadSpeechEnd)
  }

  function OnSpeechEnd(st: State, offsetMs: nat, io: Io): State {
    var endMs := InputBuffer.SpeechEndMs(st.buffer, offsetMs, st.cfg.turnDetection.silenceMs);
    var d := Turns.Step(st.turn, Turns.VadSpeechEnd).1;
    var st1 := MarkEnd(st, offsetMs);
    var st2 := if d.emitSpeechStopped then Emit(st1, SpeechStopped(endMs, st1.speechItem)) else st1;
    ApplyDecision(st2, d, io)
  }

  function OnVadEvents(st: State, evs: seq<Vad.VadEvent>, io: Io): State
    decreases |evs|
  {
    if evs == [] then st
    else
      var st1 := match evs[0]
                 case SpeechStart(offset) => OnSpeechStart(st, offset, io)
                 case SpeechEnd(offset) => OnSpeechEnd(st, offset, io);
      OnVadEvents(st1, evs[1..], io)
  }

  function OnAudio(st: State, pcm: Bytes, io: Io): State {
    if InputBuffer.Overflows(st.buffer, pcm) then Fatal(st, BufferOverflow)
    else
      var st1 := st.(buffer := InputBuffer.Append(st.buffer, pcm));
      if !io.pushOk then Fatal(st1, ProviderError)
      else if st1.detector.None? then st1
      else
        var (d, evs) := Vad.Process(st1.detector.value, pcm);
        var st2 := OnVadEvents(st1.(detector := Some(d)), evs, io);
        st2.(buffer := InputBuffer.TrimIdle(st2.buffer, st2.cfg.turnDetection.prefixMs + FRAME_MS))
  }

  // ---- transcripts --------------------------------------------------------------------------------

  function JoinTranscript(acc: Text, text: Text): Text {
    if text == [] then acc else if acc == [] then text else acc + [0x20] + text
  }

  function ResolveDeferred(st: State, ref: ItemRef, text: Text): State {
    if st.deferItem == 0 || st.deferItem != ref then st
    else
      var st1 := DropDeferred(st);
      if Blank(text) || st1.active.Some? then st1 else StartResponse(st1, NO_OVERRIDES)
  }

  // The pending item's transcript becomes final.
  function Transcribed(st: State, text: Text, delta: Text): State
    requires HasPending(st)
  {
    var ref := st.pendingItem;
    var it := st.conv.index[ref];
    var done := it.(view := it.view.(text := text, transcriptDone := true, status := Completed));
    var heard := if !st.cfg.transcription then []
                 else (if delta == [] then []
                       else [InputTranscriptDelta(ref, delta)]) + [InputTranscriptDone(ref, text)];
    st.(pendingItem := 0, transcriptAcc := [], conv := Update(st.conv, done),
        trace := st.trace + (heard + [ItemDone(done.view)]))
  }

  function CompletePending(st: State, text: Text, delta: Text): State
    requires HasPending(st)
  {
    var ref := st.pendingItem;
    var st1 := Transcribed(st, text, delta);
    var st2 := if st1.active.Some? && st1.active.value.awaiting && st1.active.value.dependsOn == ref then
                 StartPipeline(StopAsrWait(st1))
               else st1;
    ResolveDeferred(st2, ref, text)
  }

  function OnAsr(st: State, ev: AsrEvent, io: Io): State {
    match ev
    case AsrPartial(text) => st.(partial := text)
    case AsrFinal(text) =>
      var st0 := st.(partial := []);
      var st1 := if HasPending(st0) then CompletePending(st0, JoinTranscript(st0.transcriptAcc, text), text)
                 else st0.(transcriptAcc := JoinTranscript(st0.transcriptAcc, text));
      StepAndApply(st1, Turns.AsrFinal(text), io)
    case AsrEndOfTurn =>
      var st1 := if HasPending(st) then CompletePending(st, st.transcriptAcc, []) else st;
      StepAndApply(st1, Turns.AsrEndOfTurn, io)
    case AsrError => Fatal(st, ProviderError)
  }

  // ---- timer expiry -------------------------------------------------------------------------------

  function WithPendingText(st: State, text: Text): State {
    if !HasPending(st) then st
    else
      var it := st.conv.index[st.pendingItem];
      st.(conv := Update(st.conv, it.(view := it.view.(text := text))))
  }

  function OnTranscriptTimeout(st: State): State {
    var st0 := StopAsrWait(st);
    if st0.active.None? || !st0.active.value.awaiting then st0
    else
      var best := JoinTranscript(st0.transcriptAcc, st0.partial);
      if best == [] then FailResponse(st0, TranscriptTimeout) else StartPipeline(WithPendingText(st0, best))
  }

  function OnEndOfTurnTimer(st: State, io: Io): State {
    StepAndApply(DisarmEndOfTurn(st), Turns.AsrEndOfTurn, io)
  }

  function OnDeferredTimeout(st: State): State {
    var ref := st.deferItem;
    var st1 := DropDeferred(st);
    var best := JoinTranscript(st1.transcriptAcc, st1.partial);
    if ref == 0 || !HasPending(st1) || st1.pendingItem != ref || Blank(best) || st1.active.Some? then st1
    else
      var st2 := StartResponse(WithPendingText(st1, best), NO_OVERRIDES);
      if st2.active.Some? && st2.active.value.awaiting then StartPipeline(StopAsrWait(st2)) else st2
  }

  // ---- commands ---------------------------------------------------------------------------------------

  function Or<T>(o: Option<T>, default: T): T {
    if o.Some? then o.value else default
  }

  function ApplyTurnDetection(st: State): State {
    var td := st.cfg.turnDetection;
    DisarmEndOfTurn(st.(turn := Turns.NewTurn(td).(responseActive := st.turn.responseActive),
                        detector := NewDetector(td), speechItem := 0))
  }

  function OnUpdateSession(st: State, p: SessionPatch): State {
    if p.voice.Some? && p.voice.value != st.cfg.voice && st.audioEmitted then EmitError(st, VoiceLocked)
    else if !p.valid then EmitError(st, InvalidSession)
    else
      var cfg := Config(Or(p.turnDetection, st.cfg.turnDetection), Or(p.transcription, st.cfg.transcription),
                        Or(p.textOnly, st.cfg.textOnly), Or(p.voice, st.cfg.voice));
      var st1 := st.(cfg := cfg);
      Emit(if p.turnDetection.Some? then ApplyTurnDetection(st1) else st1, SessionUpdated)
  }

  function OnClearAudio(st: State): State {
    var detector := if st.detector.Some? then Some(Vad.Reset(st.detector.value)) else None;
    var st1 := st.(buffer := InputBuffer.Clear(st.buffer), detector := detector, turn := Turns.ResetTurn(st.turn));
    Emit(DisarmEndOfTurn(st1).(speechItem := 0), AudioBufferCleared)
  }

  predicate Answered(c: Conversation, callId: Text) {
    exists i :: 0 <= i < |c.items| && c.items[i] in c.index
      && c.index[c.items[i]].view.content.ToolOutputContent? && c.index[c.items[i]].view.callId == callId
  }

  // The item a client asked for, or the reason it is refused.
  function ClientItem(c: Conversation, spec: ItemSpec): Option<Item> {
    if spec.toolOutput then
      if spec.callItem !in c.index || !c.index[spec.callItem].view.content.ToolCallContent? then None
      else
        var call := c.index[spec.callItem].view;
        if Answered(c, call.callId) then None
        else Some(Item(ItemView(0, NoRole, ToolOutputContent, Completed, spec.text, 0, true, call.name, call.callId),
                       [], [], 0))
    else if spec.role !in {UserRole, AssistantRole, SystemRole} || spec.text == [] then None
    else Some(Item(ItemView(0, spec.role, TextContent, Completed, spec.text, 0, true, [], []), [], [], 0))
  }

  function OnCreateItem(st: State, spec: ItemSpec, place: Place): State {
    var it := ClientItem(st.conv, spec);
    if it.None? then EmitError(st, InvalidItem)
    else
      match Insert(st.conv, it.value, place)
      case NotFound(c) => EmitError(st.(conv := c), ItemNotFound)
      case Added(c, added, previous) =>
        EmitAll(st.(conv := c), [ItemAdded(added.view, previous), ItemDone(added.view)])
  }

  function OnDeleteItem(st: State, ref: ItemRef): State {
    if st.active.Some? && st.active.value.item == ref then EmitError(st, InvalidItem)
    else if ref !in st.conv.index then EmitError(st, ItemNotFound)
    else
      var st1 := st.(conv := Remove(st.conv, ref));
      Emit(if st1.pendingItem == ref then st1.(pendingItem := 0) else st1, ItemDeleted(ref))
  }

  function OnTruncateItem(st: State, ref: ItemRef, contentIndex: int, audioEndMs: int): State {
    if ref !in st.conv.index then EmitError(st, ItemNotFound)
    else
      var it := st.conv.index[ref];
      var cut := MsToBytes(audioEndMs);
      if !it.view.role.AssistantRole? || !it.view.content.AudioContent? then EmitError(st, ItemNotTruncatable)
      else if contentIndex != 0 then EmitError(st, InvalidItem)
      else if audioEndMs < 0 || cut > it.audioBytes then EmitError(st, TruncateOutOfRange)
      else
        match Truncation.TrimText(it.view.text, it.segments, it.alignment, cut, it.audioBytes)
        case OutOfRange => st.(panicked := true)
        case Trimmed(text) =>
          var it1 := it.(view := it.view.(text := text));
          var it2 := if cut < it.audioBytes then it1.(audioBytes := cut, view := it1.view.(audioMs := audioEndMs))
                     else it1;
          Emit(st.(conv := Update(st.conv, it2)), ItemTruncated(ref, audioEndMs))
  }

  function OnCommand(st: State, cmd: Command, io: Io): State {
    match cmd
    case UpdateSession(patch) => OnUpdateSession(st, patch)
    case CommitAudio => StepAndApply(st, Turns.ClientCommit, io)
    case ClearAudio => OnClearAudio(st)
    case CreateItem(spec, place) => OnCreateItem(st, spec, place)
    case DeleteItem(ref) => OnDeleteItem(st, ref)
    case TruncateItem(ref, contentIndex, audioEndMs) => OnTruncateItem(st, ref, contentIndex, audioEndMs)
    case CreateResponse(ov) =>
      if st.active.Some? then EmitError(st, ResponseAlreadyActive)
      else
        var (t, d) := Turns.Step(st.turn, Turns.ClientCreateResponse);
        if d.trigger then StartResponse(st.(turn := t), ov) else st.(turn := t)
    case CancelResponse(resp) =>
      if st.active.None? || (resp != 0 && resp != st.active.value.ref) then EmitError(st, CancelNotActive)
      else Interrupt(st, ClientCancelled)
    case CloseSession => st.(cancelled := true)
  }

  // The end of the session.
  function Cleanup(st: State): State {
    var st1 := if st.active.Some? then FinishResponse(st, ResponseCancelled, NoReason) else st;
    var st2 := DropDeferred(DisarmEndOfTurn(StopAsrWait(st1)));
    Emit(st2.(cancelled := true), SessionClosed)
  }
}
