// The detector, the turn machine, the buffer and the reserved item agree on
// whether the user is speaking (internal/session/session.go:476-490, 545-555,
// 735-856, internal/session/turn.go:100-186).
module SpeechState {
  import opened Audio
  import opened Utf8
  import opened Conversations
  import opened Events
  import opened Actor
  import Vad
  import InputBuffer
  import Truncation
  import Turns
  import IdleTrim

  // ---- the trace ------------------------------------------------------------------------------------

  predicate IsSpeech(e: Event) {
    e.SpeechStarted? || e.SpeechStopped?
  }

  // The item of the speech that has started and not stopped, or 0.
  function OpenSpeech(trace: seq<Event>): ItemRef {
    if trace == [] then 0 else
      var e := trace[|trace| - 1];
      if e.SpeechStarted? then e.item else if e.SpeechStopped? then 0 else OpenSpeech(trace[..|trace| - 1])
  }

  // Every speech_stopped answers the latest speech_started, and names its item.
  ghost predicate StopsMatch(trace: seq<Event>) {
    forall i :: 0 <= i < |trace| && trace[i].SpeechStopped? ==>
      trace[i].item != 0 && OpenSpeech(trace[..i]) == trace[i].item
  }

  lemma OpenSnoc(trace: seq<Event>, e: Event)
    ensures OpenSpeech(trace + [e])
         == if e.SpeechStarted? then e.item else if e.SpeechStopped? then 0 else OpenSpeech(trace)
  {
    assert (trace + [e])[..|trace|] == trace;
  }

  lemma StopsSnoc(trace: seq<Event>, e: Event)
    requires StopsMatch(trace)
    requires e.SpeechStopped? ==> e.item != 0 && OpenSpeech(trace) == e.item
    ensures StopsMatch(trace + [e])
  {
    forall i | 0 <= i < |trace + [e]| && (trace + [e])[i].SpeechStopped?
      ensures (trace + [e])[i].item != 0 && OpenSpeech((trace + [e])[..i]) == (trace + [e])[i].item
    {
      assert (trace + [e])[..i] == trace[..i];
      if i == |trace| { assert trace[..i] == trace; }
    }
  }

  // trace' goes on from trace without a word about speech.
  ghost predicate QuietlyLonger(trace: seq<Event>, trace': seq<Event>) {
    trace <= trace' && forall i :: |trace| <= i < |trace'| ==> !IsSpeech(trace'[i])
  }

  lemma {:induction false} QuietTail(trace: seq<Event>, es: seq<Event>)
    requires StopsMatch(trace) && forall i :: 0 <= i < |es| ==> !IsSpeech(es[i])
    ensures StopsMatch(trace + es) && OpenSpeech(trace + es) == OpenSpeech(trace)
    decreases |es|
  {
    if es == [] {
      assert trace + es == trace;
    } else {
      var front := es[..|es| - 1];
      QuietTail(trace, front);
      OpenSnoc(trace + front, es[|es| - 1]);
      StopsSnoc(trace + front, es[|es| - 1]);
      assert trace + es == trace + front + [es[|es| - 1]];
    }
  }

  // ---- the invariant --------------------------------------------------------------------------------------

  // Bytes the timeline accounts for since the last clear.
  function Since(b: InputBuffer.Buffer): int {
    48 * (b.headMs - b.baseMs) + |b.pcm|
  }

  // The turn machine runs as the settings say.
  predicate FollowsSettings(st: State) {
    var td := st.cfg.turnDetection;
    && st.turn.mode == td.mode
    && (!td.mode.Manual? ==>
          st.turn.createResponse == td.createResponse && st.turn.interruptResponse == td.interruptResponse)
  }

  // Detector and buffer taken by themselves.
  ghost predicate AudioInv(st: State) {
    && InputBuffer.BufferInv(st.buffer)
    && Turns.TurnInv(st.turn)
    && FollowsSettings(st)
    && (st.detector.Some? <==> !st.turn.mode.Manual?)
    && (st.detector.Some? ==>
          var d := st.detector.value;
          && Vad.DetectorInv(d) && |d.pending| < FRAME_BYTES
          && d.silenceMs == st.cfg.turnDetection.silenceMs
          && IdleTrim.Fed(d) <= Since(st.buffer)
          && (d.speaking ==> st.buffer.pcm != [] && st.buffer.segStartMs >= 0))
    && StopsMatch(st.trace)
  }

  ghost predicate SpeechInv(st: State) {
    && AudioInv(st)
    && (st.turn.speaking <==> st.detector.Some? && st.detector.value.speaking)
    && (st.turn.speaking ==>
          st.buffer.pcm != [] && st.buffer.segStartMs >= 0 && st.speechItem != 0
          && OpenSpeech(st.trace) == st.speechItem)
  }

  lemma NewSessionSpeech(cfg: Config, bufferMaxMs: nat)
    ensures SpeechInv(NewSession(cfg, bufferMaxMs))
  {
  }

  // Steps that have nothing to do with speech.
  ghost predicate Mute(st: State, st': State) {
    && st'.cfg == st.cfg && st'.buffer == st.buffer && st'.detector == st.detector && st'.speechItem == st.speechItem
    && st'.turn == st.turn.(responseActive := st'.turn.responseActive) && st'.panicked == st.panicked
    && QuietlyLonger(st.trace, st'.trace)
  }

  lemma MuteTransitive(a: State, b: State, c: State)
    requires Mute(a, b) && Mute(b, c)
    ensures Mute(a, c)
  {
    assert forall i :: |a.trace| <= i < |b.trace| ==> c.trace[i] == b.trace[i];
  }

  lemma MuteKeepsAudio(st: State, st': State)
    requires AudioInv(st) && Mute(st, st')
    ensures AudioInv(st') && OpenSpeech(st'.trace) == OpenSpeech(st.trace)
  {
    hide OpenSpeech;
    hide StopsMatch;
    var es := st'.trace[|st.trace|..];
    assert st'.trace == st.trace + es;
    QuietTail(st.trace, es);
  }

  lemma MuteKeeps(st: State, st': State)
    requires SpeechInv(st) && Mute(st, st')
    ensures SpeechInv(st')
  {
    hide QuietlyLonger;
    hide AudioInv;
    MuteKeepsAudio(st, st');
  }

  // ---- mute steps --------------------------------------------------------------------------------------------

  lemma StartPipelineIsMute(st: State)
    requires st.active.Some?
    ensures Mute(st, StartPipeline(st))
  {
    hide MessagesOf;
  }

  lemma CreatedIsMute(st: State, r: Response)
    ensures Mute(st, Created(st, r))
  {
    hide Turns.EndsSentence;
  }

  // Steps that only touch waits, texts and errors.
  lemma SmallStepsAreMute(st: State, text: Text, code: ErrorCode)
    ensures Mute(st, st) && Mute(st, StopAsrWait(st)) && Mute(st, DropDeferred(st)) && Mute(st, DeferTrigger(st))
    ensures Mute(st, WithPendingText(st, text)) && Mute(st, EmitError(st, code))
  {
    hide Mute;
    hide WithPendingText;
    SameSpeech(st, st);
    SameSpeech(st, StopAsrWait(st));
    SameSpeech(st, DropDeferred(st));
    SameSpeech(st, DeferTrigger(st));
    ErrorIsMute(st, code);
    PendingTextIsMute(st, text);
  }

  lemma ErrorIsMute(st: State, code: ErrorCode)
    ensures Mute(st, EmitError(st, code))
  {
    SameSpeech(st, EmitError(st, code));
  }

  lemma PendingTextIsMute(st: State, text: Text)
    ensures Mute(st, WithPendingText(st, text))
  {
    SameSpeech(st, WithPendingText(st, text));
  }

  ghost predicate SpeechSame(st: State, st': State) {
    && st'.cfg == st.cfg && st'.buffer == st.buffer && st'.detector == st.detector
    && st'.speechItem == st.speechItem && st'.turn == st.turn && st'.panicked == st.panicked
    && QuietlyLonger(st.trace, st'.trace)
  }

  lemma SameSpeech(st: State, st': State)
    requires SpeechSame(st, st')
    ensures Mute(st, st')
  {
    assert st.turn == st.turn.(responseActive := st'.turn.responseActive);
  }

  lemma AwaitingIsMute(st: State, item: ItemRef)
    requires st.active.Some?
    ensures Mute(st, st.(active := Some(st.active.value.(dependsOn := item)), asrWait := true))
  {
  }

  lemma StartResponseIsMute(st: State, ov: Overrides)
    ensures Mute(st, StartResponse(st, ov))
  {
    hide StartPipeline;
    hide Created;
    hide Mute;
    SmallStepsAreMute(st, [], VoiceLocked);
    SmallStepsAreMute(st, [], InvalidOverrides);
    var r := NewResponse(st.nextResp + 1, Or(ov.textOnly, st.cfg.textOnly));
    var st1 := Created(st, r);
    CreatedActive(st, r);
    CreatedIsMute(st, r);
    StartPipelineIsMute(st1);
    MuteTransitive(st, st1, StartPipeline(st1));
    AwaitingIsMute(st1, st1.pendingItem);
    MuteTransitive(st, st1, st1.(active := Some(r.(dependsOn := st1.pendingItem)), asrWait := true));
  }

  lemma CreatedActive(st: State, r: Response)
    ensures Created(st, r).active == Some(r)
  {
  }

  lemma FinishIsMute(st: State, status: ResponseStatus, reason: StatusReason)
    requires st.active.Some?
    ensures Mute(st, FinishResponse(st, status, reason))
  {
    hide FinishResponse;
    hide WithItemClosed;
    hide Retired;
    hide Mute;
    var r := st.active.value;
    FinishUnfolds(st, status, reason);
    SameSpeech(st, st);
    if r.status.ResponseInProgress? {
      var closed := if r.item in st.conv.index then WithItemClosed(st, r, status) else st;
      if r.item in st.conv.index { ClosingIsMute(st, r, status); }
      var done := ResponseDone(r.ref, status, reason, Output(closed.conv, r));
      RetiringIsMute(closed, done);
      MuteTransitive(st, closed, Retired(closed, done));
    }
  }

  lemma ClosingIsMute(st: State, r: Response, status: ResponseStatus)
    requires r.item in st.conv.index
    ensures Mute(st, WithItemClosed(st, r, status))
  {
    SameSpeech(st, WithItemClosed(st, r, status));
  }

  lemma RetiringIsMute(st: State, done: Event)
    requires done.ResponseDone?
    ensures Mute(st, Retired(st, done))
  {
    hide Turns.EndsSentence;
  }

  lemma FailIsMute(st: State, code: ErrorCode)
    requires st.active.Some?
    ensures Mute(st, FailResponse(st, code))
  {
    hide FinishResponse;
    var st1 := EmitError(st, code);
    assert Mute(st, st1);
    FinishIsMute(st1, ResponseFailed, NoReason);
    MuteTransitive(st, st1, FailResponse(st, code));
  }

  lemma InterruptIsMute(st: State, reason: StatusReason)
    ensures Mute(st, Interrupt(st, reason))
  {
    hide FinishResponse;
    if st.active.Some? { FinishIsMute(st, ResponseCancelled, reason); }
  }

  lemma WithActiveIsMute(st: State, r: Response)
    ensures Mute(st, st.(active := Some(r)))
  {
  }

  lemma MaybeCompleteIsMute(st: State, r: Response)
    ensures Mute(st, MaybeComplete(st.(active := Some(r))))
  {
    hide FinishResponse;
    WithActiveIsMute(st, r);
    var st1 := st.(active := Some(r));
    if Done(r) {
      FinishIsMute(st1, Outcome(r).0, Outcome(r).1);
      MuteTransitive(st, st1, MaybeComplete(st1));
    }
  }

  lemma DeltasAreMute(st: State, textOnly: bool, resp: ResponseRef, delta: Text, pcm: Bytes)
    requires st.active.Some?
    ensures Mute(st, AddText(st, textOnly, resp, delta))
    ensures Mute(st, AddAudio(st, resp, pcm))
  {
    hide AppendItem;
  }

  lemma RecordsAreMute(st: State, call: ToolCall, timings: seq<CharTiming>, seg: Segment)
    requires st.active.Some?
    ensures Mute(st, DeliverToolCall(st, call))
    ensures Mute(st, AddAlignment(st, timings))
    ensures Mute(st, AddSegment(st, seg))
  {
    hide AppendItem;
  }

  lemma PipeEventIsMute(st: State, ev: PipeEvent)
    ensures Mute(st, OnPipeEvent(st, ev))
  {
    hide AddText;
    hide AddAudio;
    hide DeliverToolCall;
    hide AddAlignment;
    hide AddSegment;
    hide MaybeComplete;
    hide FailResponse;
    if Fresh(st, ev) {
      var r := st.active.value;
      match ev
      case PipeTextDelta(_, resp, delta) => DeltasAreMute(st, true, resp, delta, []);
      case PipeTranscriptDelta(_, resp, delta) => DeltasAreMute(st, false, resp, delta, []);
      case PipeAudioDelta(_, resp, pcm) => DeltasAreMute(st, false, resp, [], pcm);
      case PipeToolCall(_, call) => RecordsAreMute(st, call, [], Segment(0, 0, 0, 0));
      case PipeTtsStart(_) =>
      case PipeAlignment(_, timings) => RecordsAreMute(st, ToolCall([], [], []), timings, Segment(0, 0, 0, 0));
      case PipeSegment(_, seg) => RecordsAreMute(st, ToolCall([], [], []), [], seg);
      case PipeLlmDone(_, finish) => MaybeCompleteIsMute(st, r.(llmDone := true, finish := finish));
      case PipeTtsDone(_) => MaybeCompleteIsMute(st, r.(ttsDone := true, audioFlushed := true));
      case PipeError(_, _) => FailIsMute(st, ProviderError);
    }
  }

  lemma ResolveIsMute(st: State, ref: ItemRef, text: Text)
    ensures Mute(st, ResolveDeferred(st, ref, text))
  {
    hide StartResponse;
    hide Blank;
    var st1 := DropDeferred(st);
    StartResponseIsMute(st1, NO_OVERRIDES);
    MuteTransitive(st, st1, StartResponse(st1, NO_OVERRIDES));
  }

  lemma TranscribedIsMute(st: State, text: Text, delta: Text)
    requires HasPending(st)
    ensures Mute(st, Transcribed(st, text, delta))
  {
  }

  lemma CompletePendingIsMute(st: State, text: Text, delta: Text)
    requires HasPending(st)
    ensures Mute(st, CompletePending(st, text, delta))
  {
    hide Transcribed;
    hide StartPipeline;
    hide ResolveDeferred;
    var ref := st.pendingItem;
    var st1 := Transcribed(st, text, delta);
    TranscribedIsMute(st, text, delta);
    var release := st1.active.Some? && st1.active.value.awaiting && st1.active.value.dependsOn == ref;
    if release {
      StartPipelineIsMute(StopAsrWait(st1));
      MuteTransitive(st, StopAsrWait(st1), StartPipeline(StopAsrWait(st1)));
    }
    var st2 := if release then StartPipeline(StopAsrWait(st1)) else st1;
    ResolveIsMute(st2, ref, text);
    MuteTransitive(st, st2, ResolveDeferred(st2, ref, text));
  }

  lemma TranscriptTimeoutIsMute(st: State)
    ensures Mute(st, OnTranscriptTimeout(st))
  {
    hide FailResponse;
    hide StartPipeline;
    var st0 := StopAsrWait(st);
    if st0.active.Some? {
      FailIsMute(st0, TranscriptTimeout);
      var best := JoinTranscript(st0.transcriptAcc, st0.partial);
      StartPipelineIsMute(WithPendingText(st0, best));
    }
  }

  lemma DeferredTimeoutIsMute(st: State)
    ensures Mute(st, OnDeferredTimeout(st))
  {
    hide StartResponse;
    hide StartPipeline;
    hide Blank;
    hide Mute;
    var st1 := DropDeferred(st);
    var best := JoinTranscript(st1.transcriptAcc, st1.partial);
    var st2 := WithPendingText(st1, best);
    var st3 := StartResponse(st2, NO_OVERRIDES);
    SmallStepsAreMute(st, [], VoiceLocked);
    SmallStepsAreMute(st1, best, VoiceLocked);
    MuteTransitive(st, st1, st2);
    StartResponseIsMute(st2, NO_OVERRIDES);
    MuteTransitive(st, st2, st3);
    if st3.active.Some? {
      var st4 := StopAsrWait(st3);
      SmallStepsAreMute(st3, [], VoiceLocked);
      StartPipelineIsMute(st4);
      MuteTransitive(st, st3, st4);
      MuteTransitive(st, st4, StartPipeline(st4));
    }
  }

  // ---- commits --------------------------------------------------------------------------------------------------

  // The turn has ended; the detector may not know yet, but then there is audio
  // to commit, and the commit resets it.
  ghost predicate TurnOver(st: State) {
    AudioInv(st) && !st.turn.speaking
  }

  // What a commit does to everything speech.
  ghost predicate AfterCommit(st: State, st': State) {
    && st'.cfg == st.cfg && st'.turn == st.turn.(responseActive := st'.turn.responseActive) && st'.speechItem == 0
    && st'.buffer == InputBuffer.Clear(st.buffer)
    && st'.detector == (if st.detector.Some? then Some(Vad.Reset(st.detector.value)) else None)
    && st'.panicked == st.panicked && QuietlyLonger(st.trace, st'.trace)
  }

  // What a commit slices, if anything, is in bounds.
  predicate InBounds(b: InputBuffer.Buffer) {
    b.pcm != [] ==> InputBuffer.Sliceable(b)
  }

  lemma CommitEffect(st: State, io: Io)
    requires InBounds(st.buffer)
    ensures if st.buffer.pcm != [] then AfterCommit(st, Commit(st, io).st) else Mute(st, Commit(st, io).st)
  {
    hide AppendItem;
    hide Vad.Reset;
    hide Mute;
    hide QuietlyLonger;
    hide InputBuffer.Sliceable;
    if st.buffer.pcm == [] {
      ErrorIsMute(st, BufferEmpty);
    } else {
      CommitIsQuiet(st, io);
      CommitTurn(st, io);
      TurnItself(st.turn);
    }
  }

  lemma CommitTurn(st: State, io: Io)
    requires InBounds(st.buffer)
    ensures Commit(st, io).st.turn == st.turn && Commit(st, io).st.panicked == st.panicked
  {
    hide AppendItem;
    hide Vad.Reset;
    hide InputBuffer.Clear;
    hide InputBuffer.Sliceable;
    hide InputBuffer.CommitStartMs;
    hide InputBuffer.CommitEndMs;
  }

  lemma TurnItself(t: Turns.Turn)
    ensures t == t.(responseActive := t.responseActive)
  {
  }

  // A commit says nothing about speech.
  lemma CommitIsQuiet(st: State, io: Io)
    requires st.buffer.pcm != [] && InBounds(st.buffer)
    ensures QuietlyLonger(st.trace, Commit(st, io).st.trace)
  {
    hide AppendItem;
    hide Vad.Reset;
    hide InputBuffer.Clear;
    hide InputBuffer.CommitStartMs;
    hide InputBuffer.CommitEndMs;
    hide InputBuffer.Sliceable;
  }

  lemma CommittedMute(a: State, b: State, c: State)
    requires AfterCommit(a, b) && Mute(b, c)
    ensures AfterCommit(a, c)
  {
    assert forall i :: |a.trace| <= i < |b.trace| ==> c.trace[i] == b.trace[i];
  }

  // What a decision does to everything speech.
  lemma ApplyEffect(st: State, d: Turns.Decision, io: Io)
    requires InBounds(st.buffer)
    ensures if d.commit && st.buffer.pcm != [] then AfterCommit(st, ApplyDecision(st, d, io))
            else Mute(st, ApplyDecision(st, d, io))
  {
    hide StartResponse;
    hide Commit;
    hide Mute;
    hide AfterCommit;
    var st1 := if d.armEndOfTurn || d.armFinalWait then ArmEndOfTurn(st) else st;
    var c := Commit(st1, io).st;
    var st2 := if d.commit then if Commit(st1, io).ok && d.deferTrigger then DeferTrigger(c) else c else st1;
    ArmIsMute(st);
    SmallStepsAreMute(c, [], VoiceLocked);
    SmallStepsAreMute(st2, [], VoiceLocked);
    CommitEffect(st1, io);
    StartResponseIsMute(st2, NO_OVERRIDES);
    var st3 := ApplyDecision(st, d, io);
    assert Mute(st2, st3);
    if d.commit && st.buffer.pcm != [] {
      ArmThenCommit(st, st1, c);
      CommittedMute(st, c, st2);
      CommittedMute(st, st2, st3);
    } else {
      if d.commit {
        MuteTransitive(st, st1, c);
        MuteTransitive(st, c, st2);
      }
      MuteTransitive(st, st2, st3);
    }
  }

  lemma ArmIsMute(st: State)
    ensures Mute(st, st) && Mute(st, ArmEndOfTurn(st))
  {
    SameSpeech(st, st);
    SameSpeech(st, ArmEndOfTurn(st));
  }

  lemma ArmThenCommit(st: State, st1: State, c: State)
    requires (st1 == st || st1 == ArmEndOfTurn(st)) && AfterCommit(st1, c)
    ensures AfterCommit(st, c)
  {
  }

  lemma CommittedRestores(st: State, st': State)
    requires TurnOver(st) && AfterCommit(st, st')
    ensures SpeechInv(st')
  {
    hide OpenSpeech;
    hide StopsMatch;
    var es := st'.trace[|st.trace|..];
    assert st'.trace == st.trace + es;
    QuietTail(st.trace, es);
  }

  lemma MuteOver(st: State, st': State)
    requires TurnOver(st) && st.buffer.pcm == [] && Mute(st, st')
    ensures SpeechInv(st')
  {
    MuteKeepsAudio(st, st');
  }

  lemma AudioIsInBounds(st: State)
    requires AudioInv(st)
    ensures InBounds(st.buffer)
  {
    InputBuffer.CommitIsExact(st.buffer);
  }

  // A commit, with whatever its decision brings, restores agreement; its slice is
  // in bounds.
  lemma ApplyRestores(st: State, d: Turns.Decision, io: Io)
    requires if d.commit then TurnOver(st) else SpeechInv(st)
    ensures SpeechInv(ApplyDecision(st, d, io))
  {
    hide AudioInv;
    hide ApplyDecision;
    hide Mute;
    hide AfterCommit;
    hide InputBuffer.Sliceable;
    AudioIsInBounds(st);
    ApplyEffect(st, d, io);
    if !d.commit {
      MuteKeeps(st, ApplyDecision(st, d, io));
    } else {
      if st.buffer.pcm == [] {
        MuteOver(st, ApplyDecision(st, d, io));
      } else {
        CommittedRestores(st, ApplyDecision(st, d, io));
      }
    }
  }

  lemma CommitRestores(st: State, io: Io)
    requires TurnOver(st)
    ensures SpeechInv(Commit(st, io).st)
  {
    hide AudioInv;
    hide Commit;
    hide Mute;
    hide AfterCommit;
    hide InputBuffer.Sliceable;
    AudioIsInBounds(st);
    CommitEffect(st, io);
    if st.buffer.pcm == [] {
      MuteOver(st, Commit(st, io).st);
    } else {
      CommittedRestores(st, Commit(st, io).st);
    }
  }

  // ---- turns -------------------------------------------------------------------------------------------------------

  predicate Outside(input: Turns.TurnInput) {
    input.AsrFinal? || input.AsrEndOfTurn? || input.ClientCommit?
  }

  // An input from outside the detector either ends the turn with a commit or
  // leaves the speech as it is.
  lemma OutsideInput(st: State, input: Turns.TurnInput)
    requires SpeechInv(st) && Outside(input)
    ensures var (t, d) := Turns.Step(st.turn, input);
            if d.commit then TurnOver(Stepped(st, input)) else SpeechInv(Stepped(st, input))
  {
    hide Turns.EndsSentence;
    hide StopsMatch;
    hide OpenSpeech;
  }

  lemma StepAndApplyKeeps(st: State, input: Turns.TurnInput, io: Io)
    requires SpeechInv(st) && Outside(input)
    ensures SpeechInv(StepAndApply(st, input, io))
  {
    hide SpeechInv;
    hide TurnOver;
    hide ApplyDecision;
    hide Turns.Step;
    OutsideInput(st, input);
    var (t, d) := Turns.Step(st.turn, input);
    ApplyRestores(Stepped(st, input), d, io);
  }

  lemma AsrKeeps(st: State, ev: AsrEvent, io: Io)
    requires SpeechInv(st)
    ensures SpeechInv(OnAsr(st, ev, io))
  {
    hide SpeechInv;
    hide StepAndApply;
    hide CompletePending;
    match ev
    case AsrPartial(text) => MuteKeeps(st, st.(partial := text));
    case AsrError => MuteKeeps(st, Fatal(st, ProviderError));
    case AsrFinal(text) =>
      var st0 := st.(partial := []);
      MuteKeeps(st, st0);
      var joined := JoinTranscript(st0.transcriptAcc, text);
      var st1 := if HasPending(st0) then CompletePending(st0, joined, text) else st0.(transcriptAcc := joined);
      if HasPending(st0) { CompletePendingIsMute(st0, joined, text); }
      MuteKeeps(st0, st1);
      StepAndApplyKeeps(st1, Turns.AsrFinal(text), io);
    case AsrEndOfTurn =>
      var st1 := if HasPending(st) then CompletePending(st, st.transcriptAcc, []) else st;
      if HasPending(st) { CompletePendingIsMute(st, st.transcriptAcc, []); }
      MuteKeeps(st, st1);
      StepAndApplyKeeps(st1, Turns.AsrEndOfTurn, io);
  }

  lemma EndOfTurnTimerKeeps(st: State, io: Io)
    requires SpeechInv(st)
    ensures SpeechInv(OnEndOfTurnTimer(st, io))
  {
    hide SpeechInv;
    hide StepAndApply;
    MuteKeeps(st, DisarmEndOfTurn(st));
    StepAndApplyKeeps(DisarmEndOfTurn(st), Turns.AsrEndOfTurn, io);
  }

  // ---- audio nobody listens to -----------------------------------------------------------------------------------

  // Audio nobody listens to.
  lemma UnheardAudio(st: State, pcm: Bytes)
    requires SpeechInv(st)
    ensures st.detector.None? ==> SpeechInv(st.(buffer := InputBuffer.Append(st.buffer, pcm)))
    ensures SpeechInv(Fatal(st.(buffer := InputBuffer.Append(st.buffer, pcm)), ProviderError))
  {
    hide SpeechInv;
    hide Mute;
    var st1 := st.(buffer := InputBuffer.Append(st.buffer, pcm));
    LongerKeeps(st, pcm);
    FatalIsMute(st1);
    MuteKeeps(st1, Fatal(st1, ProviderError));
  }

  lemma LongerKeeps(st: State, pcm: Bytes)
    requires SpeechInv(st)
    ensures SpeechInv(st.(buffer := InputBuffer.Append(st.buffer, pcm)))
  {
    hide StopsMatch;
    hide OpenSpeech;
    InputBuffer.AppendKeeps(st.buffer, pcm);
  }

  lemma FatalIsMute(st: State)
    ensures Mute(st, Fatal(st, ProviderError))
  {
    SameSpeech(st, Fatal(st, ProviderError));
  }

  // Idle audio is dropped.
  lemma TrimSpeech(st: State, keepMs: nat)
    requires SpeechInv(st)
    ensures SpeechInv(st.(buffer := InputBuffer.TrimIdle(st.buffer, keepMs)))
  {
    hide StopsMatch;
    hide OpenSpeech;
    InputBuffer.TrimKeeps(st.buffer, keepMs);
    var drop := BytesToMs(|st.buffer.pcm|) - keepMs;
    if st.buffer.segStartMs < 0 && drop > 0 { assert 48 * drop <= |st.buffer.pcm|; }
  }

  // ---- commands ---------------------------------------------------------------------------------------------------

  // The turn, the detector and the reserved item are all made new.
  lemma RenewedKeeps(st: State, st': State)
    requires SpeechInv(st)
    requires st'.speechItem == 0 && !st'.turn.speaking && Turns.TurnInv(st'.turn)
    requires FollowsSettings(st') && (st'.detector.Some? <==> !st'.turn.mode.Manual?)
    requires st'.detector.Some? ==>
               var d := st'.detector.value;
               && !d.speaking && d.elapsedMs == 0 && d.lastVoiced == 0 && d.pending == []
               && d.silenceMs == st'.cfg.turnDetection.silenceMs
    requires st'.buffer == st.buffer || st'.buffer == InputBuffer.Clear(st.buffer)
    requires QuietlyLonger(st.trace, st'.trace)
    ensures SpeechInv(st')
  {
    hide StopsMatch;
    hide OpenSpeech;
    var es := st'.trace[|st.trace|..];
    assert st'.trace == st.trace + es;
    QuietTail(st.trace, es);
  }

  lemma UpdateSessionKeeps(st: State, p: SessionPatch)
    requires SpeechInv(st)
    ensures SpeechInv(OnUpdateSession(st, p))
  {
    hide SpeechInv;
    hide Mute;
    SmallStepsAreMute(st, [], VoiceLocked);
    SmallStepsAreMute(st, [], InvalidSession);
    MuteKeeps(st, EmitError(st, VoiceLocked));
    MuteKeeps(st, EmitError(st, InvalidSession));
    var st' := OnUpdateSession(st, p);
    if p.turnDetection.Some? {
      if st' != EmitError(st, VoiceLocked) && st' != EmitError(st, InvalidSession) { RenewedKeeps(st, st'); }
    } else {
      UpdateAside(st, p);
    }
  }

  lemma UpdateAside(st: State, p: SessionPatch)
    requires SpeechInv(st) && p.turnDetection.None?
    ensures SpeechInv(OnUpdateSession(st, p))
  {
    hide SpeechInv;
    hide Mute;
    var cfg := Config(Or(p.turnDetection, st.cfg.turnDetection), Or(p.transcription, st.cfg.transcription),
                      Or(p.textOnly, st.cfg.textOnly), Or(p.voice, st.cfg.voice));
    ErrorIsMute(st, VoiceLocked);
    ErrorIsMute(st, InvalidSession);
    MuteKeeps(st, EmitError(st, VoiceLocked));
    MuteKeeps(st, EmitError(st, InvalidSession));
    SameDetection(st, cfg);
    EmitIsMute(st.(cfg := cfg), SessionUpdated);
    MuteKeeps(st.(cfg := cfg), Emit(st.(cfg := cfg), SessionUpdated));
  }

  lemma SameDetection(st: State, cfg: Config)
    requires SpeechInv(st) && cfg.turnDetection == st.cfg.turnDetection
    ensures SpeechInv(st.(cfg := cfg))
  {
    hide StopsMatch;
    hide OpenSpeech;
  }

  lemma EmitIsMute(st: State, e: Event)
    requires !IsSpeech(e)
    ensures Mute(st, Emit(st, e))
  {
    SameSpeech(st, Emit(st, e));
  }

  lemma ClearKeeps(st: State)
    requires SpeechInv(st)
    ensures SpeechInv(OnClearAudio(st))
  {
    hide StopsMatch;
    hide OpenSpeech;
    RenewedKeeps(st, OnClearAudio(st));
  }

  // Commands about items.
  lemma CreateIsMute(st: State, spec: ItemSpec, place: Place)
    ensures SpeechSame(st, OnCreateItem(st, spec, place))
  {
    hide Insert;
    hide ClientItem;
    hide SpeechSame;
    EmitSame(st, st, ErrorEvent(InvalidItem, false));
    var it := ClientItem(st.conv, spec);
    if it.Some? {
      match Insert(st.conv, it.value, place)
      case NotFound(c) => EmitSame(st, st.(conv := c), ErrorEvent(ItemNotFound, false));
      case Added(c, added, previous) =>
        EmitTwoSame(st, st.(conv := c), ItemAdded(added.view, previous), ItemDone(added.view));
    }
  }

  lemma EmitTwoSame(st: State, st1: State, e1: Event, e2: Event)
    requires st1 == st.(conv := st1.conv) && !IsSpeech(e1) && !IsSpeech(e2)
    ensures SpeechSame(st, EmitAll(st1, [e1, e2]))
  {
  }

  lemma EmitSame(st: State, st1: State, e: Event)
    requires st1 == st.(conv := st1.conv, pendingItem := st1.pendingItem) && !IsSpeech(e)
    ensures SpeechSame(st, Emit(st1, e))
  {
  }

  lemma DeleteIsMute(st: State, ref: ItemRef)
    ensures SpeechSame(st, OnDeleteItem(st, ref))
  {
    hide Remove;
    hide SpeechSame;
    EmitSame(st, st, ErrorEvent(InvalidItem, false));
    EmitSame(st, st, ErrorEvent(ItemNotFound, false));
    var st1 := st.(conv := Remove(st.conv, ref));
    EmitSame(st, if st1.pendingItem == ref then st1.(pendingItem := 0) else st1, ItemDeleted(ref));
  }

  // A truncate is mute, unless it slices out of range and does nothing else.
  lemma TruncateIsMute(st: State, ref: ItemRef, contentIndex: int, audioEndMs: int)
    ensures var st' := OnTruncateItem(st, ref, contentIndex, audioEndMs);
            st' == st.(panicked := true) || SpeechSame(st, st')
  {
    hide Truncation.TrimText;
    hide SpeechSame;
    EmitSame(st, st, ErrorEvent(ItemNotFound, false));
    EmitSame(st, st, ErrorEvent(ItemNotTruncatable, false));
    EmitSame(st, st, ErrorEvent(InvalidItem, false));
    EmitSame(st, st, ErrorEvent(TruncateOutOfRange, false));
    var st' := OnTruncateItem(st, ref, contentIndex, audioEndMs);
    EmitSame(st, st.(conv := st'.conv), ItemTruncated(ref, audioEndMs));
  }

  lemma PanickedKeeps(st: State)
    requires SpeechInv(st)
    ensures SpeechInv(st.(panicked := true))
  {
  }

  lemma ItemCommandsAreMute(st: State, cmd: Command, io: Io)
    requires cmd.CreateItem? || cmd.DeleteItem? || cmd.CloseSession?
    ensures Mute(st, OnCommand(st, cmd, io))
  {
    hide OnCreateItem;
    hide OnDeleteItem;
    hide Mute;
    match cmd
    case CreateItem(spec, place) => CreateIsMute(st, spec, place); SameSpeech(st, OnCommand(st, cmd, io));
    case DeleteItem(ref) => DeleteIsMute(st, ref); SameSpeech(st, OnCommand(st, cmd, io));
    case CloseSession => SameSpeech(st, OnCommand(st, cmd, io));
  }

  lemma TruncateKeeps(st: State, ref: ItemRef, contentIndex: int, audioEndMs: int)
    requires SpeechInv(st)
    ensures SpeechInv(OnTruncateItem(st, ref, contentIndex, audioEndMs))
  {
    hide SpeechInv;
    hide SpeechSame;
    hide Mute;
    hide OnTruncateItem;
    TruncateIsMute(st, ref, contentIndex, audioEndMs);
    PanickedKeeps(st);
    var st' := OnTruncateItem(st, ref, contentIndex, audioEndMs);
    if st' != st.(panicked := true) {
      SameSpeech(st, st');
      MuteKeeps(st, st');
    }
  }

  lemma CommandKeeps(st: State, cmd: Command, io: Io)
    requires SpeechInv(st)
    ensures SpeechInv(OnCommand(st, cmd, io))
  {
    hide SpeechInv;
    hide Mute;
    hide OnUpdateSession;
    hide OnClearAudio;
    hide OnCreateItem;
    hide OnDeleteItem;
    hide OnTruncateItem;
    hide StepAndApply;
    hide StartResponse;
    hide Interrupt;
    match cmd
    case UpdateSession(patch) => UpdateSessionKeeps(st, patch);
    case CommitAudio => StepAndApplyKeeps(st, Turns.ClientCommit, io);
    case ClearAudio => ClearKeeps(st);
    case CreateResponse(ov) =>
      SmallStepsAreMute(st, [], ResponseAlreadyActive);
      MuteKeeps(st, EmitError(st, ResponseAlreadyActive));
      assert st.(turn := st.turn) == st;
      StartResponseIsMute(st, ov);
      MuteKeeps(st, StartResponse(st, ov));
    case CancelResponse(_) =>
      SmallStepsAreMute(st, [], CancelNotActive);
      MuteKeeps(st, EmitError(st, CancelNotActive));
      InterruptIsMute(st, ClientCancelled);
      MuteKeeps(st, Interrupt(st, ClientCancelled));
    case CreateItem(_, _) => ItemCommandsAreMute(st, cmd, io); MuteKeeps(st, OnCommand(st, cmd, io));
    case DeleteItem(_) => ItemCommandsAreMute(st, cmd, io); MuteKeeps(st, OnCommand(st, cmd, io));
    case TruncateItem(ref, i, ms) => TruncateKeeps(st, ref, i, ms);
    case CloseSession => ItemCommandsAreMute(st, cmd, io); MuteKeeps(st, OnCommand(st, cmd, io));
  }
}
