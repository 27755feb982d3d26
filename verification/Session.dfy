// The session actor as the object the run loop drives: its fields are updated
// in place by one method per input, and every method does exactly what the
// specification function of the same step says (internal/session/session.go).
module Sessions {
  import opened Audio
  import opened Utf8
  import opened Conversations
  import opened Events
  import opened Grammar
  import opened Actor
  import ActorInvariants
  import PipeInvariants
  import Vad
  import InputBuffer
  import Turns
  import Truncation

  class Session {
    var cfg: Config
    var buffer: InputBuffer.Buffer
    var detector: Option<Vad.Detector>
    var turn: Turns.Turn
    var conv: Conversation
    var active: Option<Response>
    var activeGen: Generation
    var nextResp: ResponseRef
    var audioEmitted: bool
    var speechItem: ItemRef
    var pendingItem: ItemRef
    var transcriptAcc: Text
    var partial: Text
    var asrWait: bool
    var eot: Option<nat>
    var deferItem: ItemRef
    var deferWait: bool
    var turnNo: nat
    var cancelled: bool
    var panicked: bool
    var launches: seq<Launch>
    var trace: seq<Event>

    function State(): State
      reads this
    {
      Actor.State(cfg, buffer, detector, turn, conv, active, activeGen, nextResp, audioEmitted, speechItem, pendingItem,
                  transcriptAcc, partial, asrWait, eot, deferItem, deferWait, turnNo, cancelled, panicked,
                  launches, trace)
    }

    // Responses, items and timers are in order, and so is everything emitted.
    ghost predicate Valid()
      reads this
    {
      ActorInvariants.ActorInv(State())
    }

    constructor (cfg: Config, bufferMaxMs: nat)
      ensures State() == NewSession(cfg, bufferMaxMs)
      ensures Valid()
    {
      ActorInvariants.NewSessionInv(cfg, bufferMaxMs);
      this.cfg := cfg;
      buffer := InputBuffer.NewBuffer(bufferMaxMs);
      turn := Turns.NewTurn(cfg.turnDetection);
      detector := NewDetector(cfg.turnDetection);
      conv := Conversations.EMPTY;
      active, activeGen, nextResp, audioEmitted := None, 0, 0, false;
      speechItem, pendingItem, transcriptAcc, partial := 0, 0, [], [];
      asrWait, eot, deferItem, deferWait, turnNo := false, None, 0, false, 0;
      cancelled, panicked, launches, trace := false, false, [], [];
    }

    // ---- emission -----------------------------------------------------------------------------

    method Emit(e: Event)
      modifies this`trace
      ensures State() == Actor.Emit(old(State()), e)
    {
      trace := trace + [e];
    }

    method EmitError(code: ErrorCode)
      modifies this`trace
      ensures State() == Actor.EmitError(old(State()), code)
    {
      Emit(ErrorEvent(code, false));
    }

    method Fatal(code: ErrorCode)
      modifies this`trace, this`cancelled
      ensures State() == Actor.Fatal(old(State()), code)
    {
      Emit(ErrorEvent(code, true));
      cancelled := true;
    }

    // ---- timers -----------------------------------------------------------------------------------

    method ArmEndOfTurn()
      modifies this`eot
      ensures State() == Actor.ArmEndOfTurn(old(State()))
    {
      eot := Some(turnNo);
    }

    method DisarmEndOfTurn()
      modifies this`eot
      ensures State() == Actor.DisarmEndOfTurn(old(State()))
    {
      eot := None;
    }

    method DropDeferred()
      modifies this`deferWait, this`deferItem
      ensures State() == Actor.DropDeferred(old(State()))
    {
      deferWait := false;
      deferItem := 0;
    }

    method StopAsrWait()
      modifies this`asrWait
      ensures State() == Actor.StopAsrWait(old(State()))
    {
      asrWait := false;
    }

    // ---- responses -----------------------------------------------------------------------------------

    method StartPipeline()
      requires active.Some?
      modifies this`active, this`activeGen, this`launches
      ensures State() == Actor.StartPipeline(old(State()))
    {
      hide MessagesOf;
      hide Views;
      var r := active.value.(awaiting := false, gen := activeGen + 1);
      NextGeneration(r);
      launches := launches + [Launch(r.gen, r.ref, r.textOnly, MessagesOf(Views(conv)))];
    }

    method NextGeneration(r: Response)
      modifies this`active, this`activeGen
      ensures State() == old(State()).(active := Some(r), activeGen := old(activeGen) + 1)
    {
      activeGen := activeGen + 1;
      active := Some(r);
    }

    method StartResponse(ov: Overrides)
      modifies this
      ensures State() == Actor.StartResponse(old(State()), ov)
    {
      hide Turns.Step;
      hide Actor.StartPipeline;
      if ov.voice.Some? && ov.voice.value != cfg.voice && audioEmitted {
        EmitError(VoiceLocked);
        return;
      }
      if !ov.valid {
        EmitError(InvalidOverrides);
        return;
      }
      var r := NewResponse(nextResp + 1, Or(ov.textOnly, cfg.textOnly));
      Create(r);
      if pendingItem in conv.index && !conv.index[pendingItem].view.transcriptDone {
        Await(r.(dependsOn := pendingItem));
        return;
      }
      StartPipeline();
    }

    // The new response is announced and becomes the active one.
    method Create(r: Response)
      modifies this`nextResp, this`active, this`trace, this`turn
      ensures State() == Created(old(State()), r)
    {
      hide Turns.Step;
      Number(r);
      Emit(Event.ResponseCreated(r.ref, r.textOnly));
      turn := Turns.Step(turn, Turns.ResponseStarted).0;
    }

    method Number(r: Response)
      modifies this`nextResp, this`active
      ensures State() == old(State()).(nextResp := r.ref, active := Some(r))
    {
      nextResp := r.ref;
      active := Some(r);
    }

    method Await(r: Response)
      modifies this`active, this`asrWait
      ensures State() == old(State()).(active := Some(r), asrWait := true)
    {
      active := Some(r);
      asrWait := true;
    }

    // The message item and its terminal events.
    method CloseItem(r: Response, status: ResponseStatus)
      requires r.item in conv.index
      modifies this`trace, this`conv
      ensures State() == WithItemClosed(old(State()), r, status)
    {
      var it := conv.index[r.item];
      it := it.(view := it.view.(status := if status.ResponseCompleted? then Completed else Incomplete));
      conv := Update(conv, it);
      if r.textOnly {
        trace := trace + [OutputTextDone(r.ref, it.view.ref, it.view.text)];
      } else {
        trace := trace + [OutputAudioDone(r.ref, it.view.ref), OutputTranscriptDone(r.ref, it.view.ref, it.view.text)];
      }
      trace := trace + [OutputItemDone(r.ref, it.view)];
      assert trace == old(trace) + CloseEvents(r.ref, r.textOnly, it.view);
    }

    // The response is over.
    method Retire(done: Event)
      modifies this`asrWait, this`active, this`activeGen, this`trace, this`turn
      ensures State() == Retired(old(State()), done)
    {
      hide Turns.Step;
      Release();
      Emit(done);
      turn := Turns.Step(turn, Turns.ResponseEnded).0;
    }

    method Release()
      modifies this`asrWait, this`active, this`activeGen
      ensures State() == old(State()).(asrWait := false, active := None, activeGen := old(activeGen) + 1)
    {
      asrWait := false;
      active := None;
      activeGen := activeGen + 1;
    }

    // Moves the active response to a terminal status.
    method Finish(status: ResponseStatus, reason: StatusReason)
      requires active.Some?
      modifies this
      ensures State() == FinishResponse(old(State()), status, reason)
    {
      hide Turns.Step;
      hide CloseEvents;
      hide Closed;
      hide Output;
      hide FinishResponse;
      FinishUnfolds(State(), status, reason);
      var r := active.value;
      if !r.status.ResponseInProgress? { return; }
      if r.item in conv.index { CloseItem(r, status); }
      Retire(ResponseDone(r.ref, status, reason, Output(conv, r)));
    }

    method Fail(code: ErrorCode)
      requires active.Some?
      modifies this
      ensures State() == FailResponse(old(State()), code)
    {
      hide FinishResponse;
      EmitError(code);
      Finish(ResponseFailed, NoReason);
    }

    method Interrupt(reason: StatusReason)
      modifies this
      ensures State() == Actor.Interrupt(old(State()), reason)
    {
      hide FinishResponse;
      if active.None? { return; }
      Finish(ResponseCancelled, reason);
    }

    method MaybeComplete()
      requires active.Some?
      modifies this
      ensures State() == Actor.MaybeComplete(old(State()))
    {
      hide FinishResponse;
      if !Done(active.value) { return; }
      var (status, reason) := Outcome(active.value);
      Finish(status, reason);
    }

    // ---- pipeline facts --------------------------------------------------------------------------

    method EnsureOutputItem() returns (added: seq<Event>)
      requires active.Some?
      modifies this`conv, this`active
      ensures var w := Actor.EnsureOutputItem(old(conv), old(active).value);
              added == w.added && conv == w.conv && active == Some(w.r)
    {
      var r := active.value;
      if r.item in conv.index { return []; }
      var view := ItemView(0, AssistantRole, if r.textOnly then TextContent else AudioContent,
                           InProgress, [], 0, true, [], []);
      var inserted := AppendItem(conv, Item(view, [], [], 0));
      conv := inserted.conv;
      active := Some(r.(item := inserted.item.view.ref));
      added := [OutputItemAdded(r.ref, inserted.item.view, inserted.previous)];
    }

    method TextDelta(textOnly: bool, resp: ResponseRef, delta: Text)
      requires active.Some?
      modifies this`conv, this`active, this`trace
      ensures State() == AddText(old(State()), textOnly, resp, delta)
    {
      hide Actor.EnsureOutputItem;
      var added := EnsureOutputItem();
      var r := active.value;
      ghost var w := Actor.EnsureOutputItem(old(conv), old(active).value);
      conv := Update(conv, WithText(conv.index[r.item], delta));
      active := Some(r.(spoke := true));
      trace := trace + (added + [TextDeltaEvent(textOnly, resp, r.item, delta)]);
    }

    method AudioDelta(resp: ResponseRef, pcm: Bytes)
      requires active.Some?
      modifies this`conv, this`active, this`trace, this`audioEmitted
      ensures State() == AddAudio(old(State()), resp, pcm)
    {
      hide Actor.EnsureOutputItem;
      var added := EnsureOutputItem();
      var r := active.value;
      ghost var w := Actor.EnsureOutputItem(old(conv), old(active).value);
      conv := Update(conv, WithAudio(conv.index[r.item], |pcm|));
      audioEmitted := true;
      trace := trace + (added + [OutputAudioDelta(resp, r.item, pcm)]);
    }

    method RecordSegment(seg: Segment)
      requires active.Some?
      modifies this`conv
      ensures State() == AddSegment(old(State()), seg)
    {
      if active.value.item !in conv.index { return; }
      var it := conv.index[active.value.item];
      conv := Update(conv, it.(segments := it.segments + [seg]));
    }

    method RecordAlignment(timings: seq<CharTiming>)
      requires active.Some?
      modifies this`conv
      ensures State() == AddAlignment(old(State()), timings)
    {
      if active.value.item !in conv.index { return; }
      var it := conv.index[active.value.item];
      conv := Update(conv, it.(alignment := it.alignment + timings));
    }

    method DeliverToolCall(call: ToolCall)
      requires active.Some?
      modifies this`conv, this`active, this`trace
      ensures State() == Actor.DeliverToolCall(old(State()), call)
    {
      hide AppendItem;
      var r := active.value;
      if r.toolItem != 0 { return; }
      var view := ItemView(0, NoRole, ToolCallContent, InProgress, call.arguments, 0, true, call.name, call.id);
      var inserted := AppendItem(conv, Item(view, [], [], 0));
      var it := inserted.item;
      active := Some(r.(toolItem := it.view.ref));
      trace := trace + CallEvents(r.ref, it.view, inserted.previous);
      it := it.(view := it.view.(status := Completed));
      conv := Update(inserted.conv, it);
    }

    method SetActive(r: Response)
      modifies this`active
      ensures State() == old(State()).(active := Some(r))
    {
      active := Some(r);
    }

    // Facts of another generation are ignored. Those that are not speak about the
    // active response, as its pipeline guarantees.
    method HandleResponseEvent(ev: PipeEvent)
      requires Valid()
      modifies this
      ensures State() == OnPipeEvent(old(State()), ev)
      ensures ActorInvariants.Addressed(old(State()), ev) ==> Valid() && Legal(trace) && old(trace) <= trace
    {
      hide ActorInvariants.ActorInv;
      hide ActorInvariants.Addressed;
      if ActorInvariants.Addressed(State(), ev) { PipeInvariants.PipeEventIsLegal(State(), ev); }
      hide AddText;
      hide AddAudio;
      hide AddSegment;
      hide AddAlignment;
      hide Actor.DeliverToolCall;
      hide Actor.MaybeComplete;
      hide FailResponse;
      if active.None? || active.value.awaiting || ev.gen != activeGen { return; }
      var r := active.value;
      match ev
      case PipeTextDelta(_, resp, delta) => TextDelta(true, resp, delta);
      case PipeTranscriptDelta(_, resp, delta) => TextDelta(false, resp, delta);
      case PipeAudioDelta(_, resp, pcm) => AudioDelta(resp, pcm);
      case PipeToolCall(_, call) => DeliverToolCall(call);
      case PipeTtsStart(_) =>
      case PipeAlignment(_, timings) => RecordAlignment(timings);
      case PipeSegment(_, seg) => RecordSegment(seg);
      case PipeLlmDone(_, finish) =>
        SetActive(r.(llmDone := true, finish := finish));
        MaybeComplete();
      case PipeTtsDone(_) =>
        SetActive(r.(ttsDone := true, audioFlushed := true));
        MaybeComplete();
      case PipeError(_, _) => Fail(ProviderError);
    }

    // ---- turns ------------------------------------------------------------------------------------

    method DeferTrigger()
      modifies this`deferItem, this`deferWait
      ensures State() == Actor.DeferTrigger(old(State()))
    {
      if pendingItem == 0 { return; }
      deferItem := pendingItem;
      deferWait := true;
    }

    // The committed audio becomes an item.
    method PlaceCommitted(lengthMs: int)
      modifies this`buffer, this`detector, this`speechItem, this`conv, this`pendingItem, this`trace
      ensures State() == WithCommitted(old(State()), lengthMs)
    {
      hide AppendItem;
      var ref := speechItem;
      ResetAudio();
      AddCommitted(ref, lengthMs);
    }

    method AddCommitted(ref: ItemRef, lengthMs: int)
      modifies this`conv, this`pendingItem, this`trace
      ensures var view := ItemView(ref, UserRole, AudioContent, InProgress, transcriptAcc, lengthMs, false, [], []);
              var added := AppendItem(old(conv), Item(view, [], [], 0));
              State() == old(State()).(conv := added.conv, pendingItem := added.item.view.ref,
                trace := old(trace) + [AudioBufferCommitted(added.item.view.ref, added.previous),
                                       ItemAdded(added.item.view, added.previous)])
    {
      hide AppendItem;
      var view := ItemView(ref, UserRole, AudioContent, InProgress, transcriptAcc, lengthMs, false, [], []);
      var inserted := AppendItem(conv, Item(view, [], [], 0));
      conv := inserted.conv;
      pendingItem := inserted.item.view.ref;
      trace := trace + [AudioBufferCommitted(inserted.item.view.ref, inserted.previous),
                        ItemAdded(inserted.item.view, inserted.previous)];
    }

    // Buffer and detector start afresh; no item is reserved.
    method ResetAudio()
      modifies this`buffer, this`detector, this`speechItem
      ensures State() == old(State()).(
                buffer := InputBuffer.Clear(old(buffer)), speechItem := 0,
                detector := if old(detector).Some? then Some(Vad.Reset(old(detector).value)) else None)
    {
      if detector.Some? { detector := Some(Vad.Reset(detector.value)); }
      buffer := InputBuffer.Clear(buffer);
      speechItem := 0;
    }

    method Commit(io: Io) returns (ok: bool)
      modifies this
      ensures Actor.Commit(old(State()), io) == Actor.Committed(State(), ok)
    {
      hide WithCommitted;
      hide InputBuffer.Sliceable;
      CommitUnfolds(State(), io);
      if buffer.pcm == [] {
        EmitError(BufferEmpty);
        return false;
      }
      if !InputBuffer.Sliceable(buffer) {
        Panic();
        return false;
      }
      PlaceCommitted(InputBuffer.CommitEndMs(buffer) - InputBuffer.CommitStartMs(buffer));
      if !io.finalizeOk {
        Fatal(ProviderError);
        return false;
      }
      ok := true;
    }

    // The commit, trigger and timer parts of a decision.
    method Apply(d: Turns.Decision, io: Io)
      modifies this
      ensures State() == ApplyDecision(old(State()), d, io)
    {
      hide Actor.Commit;
      hide Actor.StartResponse;
      hide Actor.DeferTrigger;
      if d.armEndOfTurn || d.armFinalWait { ArmEndOfTurn(); }
      if d.commit {
        var ok := Commit(io);
        if ok && d.deferTrigger { DeferTrigger(); }
      }
      if d.trigger && active.None? { StartResponse(NO_OVERRIDES); }
    }

    method StepTurn(input: Turns.TurnInput) returns (d: Turns.Decision)
      modifies this`turn, this`turnNo
      ensures d == Turns.Step(old(turn), input).1
      ensures State() == Stepped(old(State()), input)
    {
      hide Turns.Step;
      var (t, decision) := Turns.Step(turn, input);
      turn := t;
      d := decision;
      if d.commit || d.emitSpeechStarted { turnNo := turnNo + 1; }
    }

    method StepAndApply(input: Turns.TurnInput, io: Io)
      modifies this
      ensures State() == Actor.StepAndApply(old(State()), input, io)
    {
      hide Stepped;
      hide Turns.Step;
      hide ApplyDecision;
      var d := StepTurn(input);
      Apply(d, io);
    }

    // ---- audio ----------------------------------------------------------------------------------------

    method ReserveSpeechItem()
      modifies this`conv, this`speechItem
      ensures State() == Actor.ReserveSpeechItem(old(State()))
    {
      if speechItem != 0 { return; }
      var (c, ref) := NewRef(conv);
      conv := c;
      speechItem := ref;
    }

    method MarkStart(offsetMs: nat) returns (startMs: int, d: Turns.Decision)
      modifies this`buffer, this`eot, this`turn, this`turnNo
      ensures startMs == InputBuffer.SpeechStartMs(old(buffer), offsetMs, cfg.turnDetection.prefixMs)
      ensures d == Turns.Step(old(turn), Turns.VadSpeechStart).1
      ensures State() == Actor.MarkStart(old(State()), offsetMs)
    {
      hide Stepped;
      hide Turns.Step;
      startMs := InputBuffer.SpeechStartMs(buffer, offsetMs, cfg.turnDetection.prefixMs);
      SetBuffer(InputBuffer.MarkSpeechStart(buffer, offsetMs, cfg.turnDetection.prefixMs));
      DisarmEndOfTurn();
      d := StepTurn(Turns.VadSpeechStart);
    }

    method SpeechStart(offsetMs: nat, io: Io)
      modifies this
      ensures State() == OnSpeechStart(old(State()), offsetMs, io)
    {
      hide Turns.Step;
      hide Actor.MarkStart;
      hide Actor.ReserveSpeechItem;
      hide Actor.Interrupt;
      hide ApplyDecision;
      ReserveSpeechItem();
      var startMs, d := MarkStart(offsetMs);
      if d.emitSpeechStarted { Emit(SpeechStarted(startMs, speechItem)); }
      if d.interrupt { Interrupt(TurnDetected); }
      if d.emitSpeechStarted && turn.interruptResponse && deferItem != 0 { DropDeferred(); }
      Apply(d, io);
    }

    method MarkEnd(offsetMs: nat) returns (endMs: int, d: Turns.Decision)
      modifies this`buffer, this`turn, this`turnNo
      ensures endMs == InputBuffer.SpeechEndMs(old(buffer), offsetMs, cfg.turnDetection.silenceMs)
      ensures d == Turns.Step(old(turn), Turns.VadSpeechEnd).1
      ensures State() == Actor.MarkEnd(old(State()), offsetMs)
    {
      hide Stepped;
      hide Turns.Step;
      endMs := InputBuffer.SpeechEndMs(buffer, offsetMs, cfg.turnDetection.silenceMs);
      SetBuffer(InputBuffer.MarkSpeechEnd(buffer, offsetMs, cfg.turnDetection.silenceMs));
      d := StepTurn(Turns.VadSpeechEnd);
    }

    method SpeechEnd(offsetMs: nat, io: Io)
      modifies this
      ensures State() == OnSpeechEnd(old(State()), offsetMs, io)
    {
      hide Turns.Step;
      hide Actor.MarkEnd;
      hide ApplyDecision;
      var endMs, d := MarkEnd(offsetMs);
      if d.emitSpeechStopped { Emit(SpeechStopped(endMs, speechItem)); }
      Apply(d, io);
    }

    method VadEvents(evs: seq<Vad.VadEvent>, io: Io)
      modifies this
      ensures State() == OnVadEvents(old(State()), evs, io)
    {
      hide OnSpeechStart;
      hide OnSpeechEnd;
      for i := 0 to |evs|
        invariant OnVadEvents(old(State()), evs, io) == OnVadEvents(State(), evs[i..], io)
      {
        assert evs[i..][1..] == evs[i + 1..];
        match evs[i] {
          case SpeechStart(offset) => SpeechStart(offset, io);
          case SpeechEnd(offset) => SpeechEnd(offset, io);
        }
      }
    }

    method SetBuffer(b: InputBuffer.Buffer)
      modifies this`buffer
      ensures State() == old(State()).(buffer := b)
    {
      buffer := b;
    }

    method SetDetector(d: Vad.Detector)
      modifies this`detector
      ensures State() == old(State()).(detector := Some(d))
    {
      detector := Some(d);
    }

    method HandleAudio(pcm: Bytes, io: Io)
      requires Valid()
      modifies this
      ensures State() == OnAudio(old(State()), pcm, io)
      ensures Valid() && Legal(trace) && old(trace) <= trace
    {
      hide ActorInvariants.ActorInv;
      hide ActorInvariants.Good;
      ActorInvariants.OnAudioKeeps(State(), pcm, io);
      ActorInvariants.GoodIsLegal(State(), OnAudio(State(), pcm, io));
      hide OnVadEvents;
      hide Vad.Process;
      hide InputBuffer.TrimIdle;
      if InputBuffer.Overflows(buffer, pcm) {
        Fatal(BufferOverflow);
        return;
      }
      SetBuffer(InputBuffer.Append(buffer, pcm));
      if !io.pushOk {
        Fatal(ProviderError);
        return;
      }
      if detector.None? { return; }
      var (d, evs) := Vad.Process(detector.value, pcm);
      SetDetector(d);
      VadEvents(evs, io);
      SetBuffer(InputBuffer.TrimIdle(buffer, cfg.turnDetection.prefixMs + FRAME_MS));
    }

    // ---- transcripts --------------------------------------------------------------------------------------

    method ResolveDeferred(ref: ItemRef, text: Text)
      modifies this
      ensures State() == Actor.ResolveDeferred(old(State()), ref, text)
    {
      hide Actor.StartResponse;
      hide Blank;
      if deferItem == 0 || deferItem != ref { return; }
      DropDeferred();
      if Blank(text) || active.Some? { return; }
      StartResponse(NO_OVERRIDES);
    }

    method FinishTranscript(text: Text, delta: Text)
      requires pendingItem in conv.index
      modifies this`pendingItem, this`transcriptAcc, this`conv, this`trace
      ensures State() == Transcribed(old(State()), text, delta)
    {
      var ref := pendingItem;
      var it := conv.index[ref];
      it := it.(view := it.view.(text := text, transcriptDone := true, status := Completed));
      var heard: seq<Event> := [];
      if cfg.transcription {
        if delta != [] { heard := [InputTranscriptDelta(ref, delta)]; }
        heard := heard + [InputTranscriptDone(ref, text)];
      }
      SetTranscript(it, heard + [ItemDone(it.view)]);
    }

    method SetTranscript(it: Item, heard: seq<Event>)
      modifies this`pendingItem, this`transcriptAcc, this`conv, this`trace
      ensures State() == old(State()).(pendingItem := 0, transcriptAcc := [], conv := Update(old(conv), it),
                                       trace := old(trace) + heard)
    {
      ClearPending();
      Put(Update(conv, it), heard);
    }

    method ClearPending()
      modifies this`pendingItem, this`transcriptAcc
      ensures State() == old(State()).(pendingItem := 0, transcriptAcc := [])
    {
      pendingItem := 0;
      transcriptAcc := [];
    }

    // The conversation moves on and the client is told.
    method Put(c: Conversation, es: seq<Event>)
      modifies this`conv, this`trace
      ensures State() == old(State()).(conv := c, trace := old(trace) + es)
    {
      conv := c;
      trace := trace + es;
    }

    // Releases any response awaiting the pending item.
    method CompletePending(text: Text, delta: Text)
      requires pendingItem in conv.index
      modifies this
      ensures State() == Actor.CompletePending(old(State()), text, delta)
    {
      hide Transcribed;
      hide Actor.StartPipeline;
      hide Actor.ResolveDeferred;
      var ref := pendingItem;
      FinishTranscript(text, delta);
      if active.Some? && active.value.awaiting && active.value.dependsOn == ref {
        StopAsrWait();
        StartPipeline();
      }
      ResolveDeferred(ref, text);
    }

    method SetTexts(acc: Text, heard: Text)
      modifies this`transcriptAcc, this`partial
      ensures State() == old(State()).(transcriptAcc := acc, partial := heard)
    {
      transcriptAcc := acc;
      partial := heard;
    }

    method HandleAsr(ev: AsrEvent, io: Io)
      requires Valid()
      modifies this
      ensures State() == OnAsr(old(State()), ev, io)
      ensures Valid() && Legal(trace) && old(trace) <= trace
    {
      hide ActorInvariants.ActorInv;
      hide ActorInvariants.Good;
      ActorInvariants.OnAsrKeeps(State(), ev, io);
      ActorInvariants.GoodIsLegal(State(), OnAsr(State(), ev, io));
      hide Actor.CompletePending;
      hide Actor.StepAndApply;
      match ev
      case AsrPartial(text) => SetTexts(transcriptAcc, text);
      case AsrFinal(text) =>
        SetTexts(transcriptAcc, []);
        if pendingItem in conv.index {
          CompletePending(JoinTranscript(transcriptAcc, text), text);
        } else {
          SetTexts(JoinTranscript(transcriptAcc, text), partial);
        }
        StepAndApply(Turns.AsrFinal(text), io);
      case AsrEndOfTurn =>
        if pendingItem in conv.index { CompletePending(transcriptAcc, []); }
        StepAndApply(Turns.AsrEndOfTurn, io);
      case AsrError => Fatal(ProviderError);
    }

    // ---- timer expiry -----------------------------------------------------------------------------------------

    method SetPendingText(text: Text)
      modifies this`conv
      ensures State() == WithPendingText(old(State()), text)
    {
      if pendingItem !in conv.index { return; }
      var it := conv.index[pendingItem];
      conv := Update(conv, it.(view := it.view.(text := text)));
    }

    method TranscriptTimeout()
      requires Valid() && asrWait
      modifies this
      ensures State() == OnTranscriptTimeout(old(State()))
      ensures Valid() && Legal(trace) && old(trace) <= trace
    {
      hide ActorInvariants.ActorInv;
      hide ActorInvariants.Good;
      ActorInvariants.OnTranscriptTimeoutKeeps(State());
      ActorInvariants.GoodIsLegal(State(), OnTranscriptTimeout(State()));
      hide FailResponse;
      hide Actor.StartPipeline;
      StopAsrWait();
      if active.None? || !active.value.awaiting { return; }
      var best := JoinTranscript(transcriptAcc, partial);
      if best == [] {
        Fail(ErrorCode.TranscriptTimeout);
        return;
      }
      SetPendingText(best);
      StartPipeline();
    }

    method EndOfTurnTimer(io: Io)
      requires Valid()
      modifies this
      ensures State() == OnEndOfTurnTimer(old(State()), io)
      ensures Valid() && Legal(trace) && old(trace) <= trace
    {
      hide ActorInvariants.ActorInv;
      hide ActorInvariants.Good;
      ActorInvariants.OnEndOfTurnTimerKeeps(State(), io);
      ActorInvariants.GoodIsLegal(State(), OnEndOfTurnTimer(State(), io));
      hide Actor.StepAndApply;
      DisarmEndOfTurn();
      StepAndApply(Turns.AsrEndOfTurn, io);
    }

    method DeferredTimeout()
      requires Valid()
      modifies this
      ensures State() == OnDeferredTimeout(old(State()))
      ensures Valid() && Legal(trace) && old(trace) <= trace
    {
      hide ActorInvariants.ActorInv;
      hide ActorInvariants.Good;
      ActorInvariants.OnDeferredTimeoutKeeps(State());
      ActorInvariants.GoodIsLegal(State(), OnDeferredTimeout(State()));
      hide Actor.StartResponse;
      hide Actor.StartPipeline;
      hide Blank;
      var ref := deferItem;
      DropDeferred();
      if ref == 0 || pendingItem !in conv.index || pendingItem != ref { return; }
      var best := JoinTranscript(transcriptAcc, partial);
      if Blank(best) || active.Some? { return; }
      SetPendingText(best);
      StartResponse(NO_OVERRIDES);
      if active.Some? && active.value.awaiting {
        StopAsrWait();
        StartPipeline();
      }
    }

    // ---- commands ------------------------------------------------------------------------------------------------

    method ApplyTurnDetection()
      modifies this`turn, this`detector, this`eot, this`speechItem
      ensures State() == Actor.ApplyTurnDetection(old(State()))
    {
      hide Turns.NewTurn;
      hide NewDetector;
      var wasActive := turn.responseActive;
      Rebuild(Turns.NewTurn(cfg.turnDetection).(responseActive := wasActive), NewDetector(cfg.turnDetection));
      DisarmEndOfTurn();
    }

    method Rebuild(t: Turns.Turn, d: Option<Vad.Detector>)
      modifies this`turn, this`detector, this`speechItem
      ensures State() == old(State()).(turn := t, detector := d, speechItem := 0)
    {
      turn := t;
      detector := d;
      speechItem := 0;
    }

    method SetConfig(c: Config)
      modifies this`cfg
      ensures State() == old(State()).(cfg := c)
    {
      cfg := c;
    }

    method UpdateSession(p: SessionPatch)
      modifies this
      ensures State() == OnUpdateSession(old(State()), p)
    {
      hide Actor.ApplyTurnDetection;
      if p.voice.Some? && p.voice.value != cfg.voice && audioEmitted {
        EmitError(VoiceLocked);
        return;
      }
      if !p.valid {
        EmitError(InvalidSession);
        return;
      }
      SetConfig(Config(Or(p.turnDetection, cfg.turnDetection), Or(p.transcription, cfg.transcription),
                       Or(p.textOnly, cfg.textOnly), Or(p.voice, cfg.voice)));
      if p.turnDetection.Some? { ApplyTurnDetection(); }
      Emit(SessionUpdated);
    }

    method ClearAudio()
      modifies this`buffer, this`detector, this`turn, this`eot, this`speechItem, this`trace
      ensures State() == OnClearAudio(old(State()))
    {
      hide InputBuffer.Clear;
      hide Vad.Reset;
      ResetAudio();
      ResetTurn();
      DisarmEndOfTurn();
      Emit(AudioBufferCleared);
    }

    method ResetTurn()
      modifies this`turn
      ensures State() == old(State()).(turn := Turns.ResetTurn(old(turn)))
    {
      turn := Turns.ResetTurn(turn);
    }

    method SetConversation(c: Conversation)
      modifies this`conv
      ensures State() == old(State()).(conv := c)
    {
      conv := c;
    }

    method NewItem(spec: ItemSpec, place: Place)
      modifies this`conv, this`trace
      ensures State() == OnCreateItem(old(State()), spec, place)
    {
      hide ClientItem;
      hide Insert;
      var it := ClientItem(conv, spec);
      if it.None? {
        EmitError(InvalidItem);
        return;
      }
      var inserted := Insert(conv, it.value, place);
      SetConversation(inserted.conv);
      if inserted.NotFound? {
        EmitError(ItemNotFound);
        return;
      }
      trace := trace + [ItemAdded(inserted.item.view, inserted.previous), ItemDone(inserted.item.view)];
    }

    method DeleteItem(ref: ItemRef)
      modifies this`conv, this`pendingItem, this`trace
      ensures State() == OnDeleteItem(old(State()), ref)
    {
      hide Remove;
      if active.Some? && active.value.item == ref {
        EmitError(InvalidItem);
        return;
      }
      if ref !in conv.index {
        EmitError(ItemNotFound);
        return;
      }
      SetConversation(Remove(conv, ref));
      if pendingItem == ref { ForgetPending(); }
      Emit(ItemDeleted(ref));
    }

    method ForgetPending()
      modifies this`pendingItem
      ensures State() == old(State()).(pendingItem := 0)
    {
      pendingItem := 0;
    }

    method TruncateItem(ref: ItemRef, contentIndex: int, audioEndMs: int)
      modifies this`conv, this`panicked, this`trace
      ensures State() == OnTruncateItem(old(State()), ref, contentIndex, audioEndMs)
    {
      hide Truncation.TrimText;
      if ref !in conv.index {
        EmitError(ItemNotFound);
        return;
      }
      var it := conv.index[ref];
      if !it.view.role.AssistantRole? || !it.view.content.AudioContent? {
        EmitError(ItemNotTruncatable);
        return;
      }
      if contentIndex != 0 {
        EmitError(InvalidItem);
        return;
      }
      var cut := MsToBytes(audioEndMs);
      if audioEndMs < 0 || cut > it.audioBytes {
        EmitError(TruncateOutOfRange);
        return;
      }
      var trim := Truncation.TrimText(it.view.text, it.segments, it.alignment, cut, it.audioBytes);
      if trim.OutOfRange? {
        Panic();
        return;
      }
      var cutShort := it.(view := it.view.(text := trim.text));
      if cut < it.audioBytes {
        cutShort := cutShort.(audioBytes := cut, view := cutShort.view.(audioMs := audioEndMs));
      }
      Put(Update(conv, cutShort), [ItemTruncated(ref, audioEndMs)]);
    }

    method Panic()
      modifies this`panicked
      ensures State() == old(State()).(panicked := true)
    {
      panicked := true;
    }

    method Cancel()
      modifies this`cancelled
      ensures State() == old(State()).(cancelled := true)
    {
      cancelled := true;
    }

    method HandleCommand(cmd: Command, io: Io)
      requires Valid()
      modifies this
      ensures State() == OnCommand(old(State()), cmd, io)
      ensures Valid() && Legal(trace) && old(trace) <= trace
    {
      hide ActorInvariants.ActorInv;
      hide ActorInvariants.Good;
      ActorInvariants.OnCommandKeeps(State(), cmd, io);
      ActorInvariants.GoodIsLegal(State(), OnCommand(State(), cmd, io));
      hide Actor.StepAndApply;
      hide OnUpdateSession;
      hide OnClearAudio;
      hide OnCreateItem;
      hide OnDeleteItem;
      hide OnTruncateItem;
      hide Actor.StartResponse;
      hide Actor.Interrupt;
      match cmd
      case UpdateSession(patch) => UpdateSession(patch);
      case CommitAudio => StepAndApply(Turns.ClientCommit, io);
      case ClearAudio => ClearAudio();
      case CreateItem(spec, place) => NewItem(spec, place);
      case DeleteItem(ref) => DeleteItem(ref);
      case TruncateItem(ref, contentIndex, audioEndMs) => TruncateItem(ref, contentIndex, audioEndMs);
      case CreateResponse(ov) =>
        if active.Some? {
          EmitError(ResponseAlreadyActive);
          return;
        }
        var d := StepTurn(Turns.ClientCreateResponse);
        if d.trigger { StartResponse(ov); }
      case CancelResponse(resp) =>
        if active.None? || (resp != 0 && resp != active.value.ref) {
          EmitError(CancelNotActive);
          return;
        }
        Interrupt(ClientCancelled);
      case CloseSession => Cancel();
    }

    // The end of the session.
    method Cleanup()
      requires Valid()
      modifies this
      ensures State() == Actor.Cleanup(old(State()))
      ensures active.None? && ParseAll(trace) == Idle(nextResp) && !asrWait && eot.None? && !deferWait
    {
      hide ActorInvariants.ActorInv;
      hide ActorInvariants.Evolves;
      hide ParseAll;
      ActorInvariants.CleanupCloses(State());
      hide FinishResponse;
      if active.Some? { Finish(ResponseCancelled, NoReason); }
      StopAsrWait();
      DisarmEndOfTurn();
      DropDeferred();
      Cancel();
      Emit(SessionClosed);
    }
  }

  // A commit up to the point where the recognizer is told.
  function WithCommitted(st: State, lengthMs: int): State {
    var detector := if st.detector.Some? then Some(Vad.Reset(st.detector.value)) else None;
    var view := ItemView(st.speechItem, UserRole, AudioContent, InProgress, st.transcriptAcc, lengthMs, false, [], []);
    var added := AppendItem(st.conv, Item(view, [], [], 0));
    var it := added.item;
    st.(buffer := InputBuffer.Clear(st.buffer), detector := detector, speechItem := 0,
        conv := added.conv, pendingItem := it.view.ref,
        trace := st.trace + [AudioBufferCommitted(it.view.ref, added.previous), ItemAdded(it.view, added.previous)])
  }

  lemma CommitUnfolds(st: State, io: Io)
    ensures st.buffer.pcm != [] && InputBuffer.Sliceable(st.buffer) ==>
              var lengthMs := InputBuffer.CommitEndMs(st.buffer) - InputBuffer.CommitStartMs(st.buffer);
              var placed := WithCommitted(st, lengthMs);
              Actor.Commit(st, io)
              == if io.finalizeOk then Actor.Committed(placed, true)
                 else Actor.Committed(Actor.Fatal(placed, ProviderError), false)
    ensures st.buffer.pcm == [] ==> Actor.Commit(st, io) == Actor.Committed(Actor.EmitError(st, BufferEmpty), false)
    ensures st.buffer.pcm != [] && !InputBuffer.Sliceable(st.buffer) ==>
              Actor.Commit(st, io) == Actor.Committed(st.(panicked := true), false)
  {
    hide AppendItem;
  }
}
