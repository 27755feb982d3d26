// No slice goes out of range over whole runs in which no append loses the speech,
// the LLM's text is valid and no item is truncated twice
// (internal/session/session.go:540-584, 699-856).
module PanicFree {
  import opened Audio
  import opened Utf8
  import opened Conversations
  import opened Events
  import opened Grammar
  import opened Actor
  import opened ActorInvariants
  import opened Pipelines
  import opened Gateway
  import opened SessionTexts
  import opened SpeechState
  import opened SpeechEvents
  import opened SpeechRuns
  import InputBuffer
  import Truncation
  import Turns
  import Vad

  // ---- handlers -------------------------------------------------------------------------------------------

  lemma MuteIsInBounds(st: State, st': State)
    requires Mute(st, st')
    ensures st'.panicked == st.panicked && st'.buffer == st.buffer
  {
    hide QuietlyLonger;
  }

  // A turn input from outside, with whatever it commits.
  lemma OutsideInBounds(st: State, input: Turns.TurnInput, io: Io)
    requires InBounds(st.buffer)
    ensures StepAndApply(st, input, io).panicked == st.panicked
  {
    hide ApplyDecision;
    hide Turns.Step;
    hide QuietlyLonger;
    ApplyEffect(Stepped(st, input), Turns.Step(st.turn, input).1, io);
  }

  lemma SettingsInBounds(st: State, p: SessionPatch)
    ensures OnUpdateSession(st, p).panicked == st.panicked
  {
  }

  lemma ClearInBounds(st: State)
    ensures OnClearAudio(st).panicked == st.panicked
  {
  }

  lemma CommandInBounds(st: State, cmd: Command, io: Io)
    requires InBounds(st.buffer) && !cmd.TruncateItem?
    ensures OnCommand(st, cmd, io).panicked == st.panicked
  {
    hide Mute;
    hide OnUpdateSession;
    hide OnClearAudio;
    hide OnCreateItem;
    hide OnDeleteItem;
    hide StepAndApply;
    hide StartResponse;
    hide Interrupt;
    hide InBounds;
    match cmd
    case UpdateSession(patch) => SettingsInBounds(st, patch);
    case CommitAudio => OutsideInBounds(st, Turns.ClientCommit, io);
    case ClearAudio => ClearInBounds(st);
    case CreateResponse(ov) =>
      assert st.(turn := st.turn) == st;
      StartResponseIsMute(st, ov);
      MuteIsInBounds(st, StartResponse(st, ov));
    case CancelResponse(_) =>
      InterruptIsMute(st, ClientCancelled);
      MuteIsInBounds(st, Interrupt(st, ClientCancelled));
    case _ =>
      ItemCommandsAreMute(st, cmd, io);
      MuteIsInBounds(st, OnCommand(st, cmd, io));
  }

  lemma AudioInBounds(st: State, pcm: Bytes, io: Io)
    requires SpeechInv(st)
    ensures OnAudio(st, pcm, io).panicked == st.panicked
  {
    hide SpeechInv;
    hide OnVadEvents;
    hide Vad.Process;
    hide Loses;
    if !InputBuffer.Overflows(st.buffer, pcm) && io.pushOk && st.detector.Some? {
      hide OnAudio;
      ListenedTo(st, pcm, io);
    }
  }

  lemma AsrInBounds(st: State, ev: AsrEvent, io: Io)
    requires InBounds(st.buffer)
    ensures OnAsr(st, ev, io).panicked == st.panicked
  {
    hide Mute;
    hide StepAndApply;
    hide CompletePending;
    hide InBounds;
    match ev
    case AsrPartial(text) =>
    case AsrError =>
    case AsrFinal(text) =>
      var st0 := st.(partial := []);
      var joined := JoinTranscript(st0.transcriptAcc, text);
      var st1 := if HasPending(st0) then CompletePending(st0, joined, text) else st0.(transcriptAcc := joined);
      if HasPending(st0) {
        CompletePendingIsMute(st0, joined, text);
        MuteIsInBounds(st0, st1);
      }
      OutsideInBounds(st1, Turns.AsrFinal(text), io);
    case AsrEndOfTurn =>
      var st1 := if HasPending(st) then CompletePending(st, st.transcriptAcc, []) else st;
      if HasPending(st) {
        CompletePendingIsMute(st, st.transcriptAcc, []);
        MuteIsInBounds(st, st1);
      }
      OutsideInBounds(st1, Turns.AsrEndOfTurn, io);
  }

  predicate Truncates(input: Input) {
    input.GotCommand? && input.cmd.TruncateItem?
  }

  // While everything agrees, no handler but a truncate can slice out of range.
  lemma HandlerInBounds(st: State, input: Input)
    requires SpeechInv(st) && !Truncates(input)
    ensures Handled(st, input).panicked == st.panicked
  {
    hide SpeechInv;
    hide Mute;
    hide OnCommand;
    hide OnAudio;
    hide OnAsr;
    hide OnTranscriptTimeout;
    hide OnDeferredTimeout;
    hide StepAndApply;
    hide InBounds;
    AgreeingIsInBounds(st);
    match input
    case GotCommand(cmd, io) => CommandInBounds(st, cmd, io);
    case GotAudio(pcm, io) => AudioInBounds(st, pcm, io);
    case GotAsr(ev, io) => AsrInBounds(st, ev, io);
    case TranscriptTimer =>
      TranscriptTimeoutIsMute(st);
      MuteIsInBounds(st, OnTranscriptTimeout(st));
    case EndOfTurnTimer(io) => OutsideInBounds(DisarmEndOfTurn(st), Turns.AsrEndOfTurn, io);
    case DeferTimer =>
      DeferredTimeoutIsMute(st);
      MuteIsInBounds(st, OnDeferredTimeout(st));
  }

  // ---- truncates -------------------------------------------------------------------------------------------

  lemma FirstCutInBounds(s: System, ref: ItemRef, contentIndex: int, ms: int)
    requires SysInv(s) && ItemsValid(s.actor) && !s.over && !WasTruncated(s.actor.trace, ref)
    ensures OnTruncateItem(s.actor, ref, contentIndex, ms).panicked == s.actor.panicked
  {
    hide Truncation.TrimText;
    hide ActorInv;
    hide PipesInv;
    hide RunInv;
    hide WasTruncated;
    if ref in s.actor.conv.index && Spoken(s.actor.conv.index[ref]) {
      var it := s.actor.conv.index[ref];
      assert Sound(it, true);
      Truncation.TrimIsPrefix(it.view.text, it.segments, it.alignment, MsToBytes(ms), it.audioBytes);
    }
  }

  // The step truncates no item that was truncated before.
  ghost predicate CutsOnce(s: System, step: Step) {
    step.Handle? && Truncates(step.input) ==> !WasTruncated(s.actor.trace, step.input.cmd.ref)
  }

  ghost predicate AllCutOnce(s: System, isLetter: Rune -> bool, steps: seq<Step>)
    requires MayRun(s, isLetter, steps)
    decreases |steps|
  {
    steps == [] || (CutsOnce(s, steps[0]) && AllCutOnce(Take(s, isLetter, steps[0]), isLetter, steps[1..]))
  }

  // ---- whole runs --------------------------------------------------------------------------------------------

  lemma StepInBounds(s: System, isLetter: Rune -> bool, step: Step)
    requires SysInv(s) && TextsValid(s) && SpeechInv(s.actor) && MayStep(s, step) && CutsOnce(s, step)
    ensures Take(s, isLetter, step).actor.panicked == s.actor.panicked
  {
    hide SysInv;
    hide SpeechInv;
    hide ItemsValid;
    hide WasTruncated;
    hide Mute;
    hide OnPipeEvent;
    hide OnTruncateItem;
    hide Act;
    match step
    case Handle(input) =>
      if Truncates(input) {
        FirstCutInBounds(s, input.cmd.ref, input.cmd.contentIndex, input.cmd.audioEndMs);
      } else {
        hide Handled;
        HandlerInBounds(s.actor, input);
      }
    case Deliver =>
      PipeEventIsMute(s.actor, s.queue[0]);
      MuteIsInBounds(s.actor, OnPipeEvent(s.actor, s.queue[0]));
    case Stage(i, a) =>
    case CloseOutside =>
  }

  lemma {:induction false} RunInBounds(s: System, isLetter: Rune -> bool, steps: seq<Step>)
    requires SysInv(s) && TextsValid(s) && SpeechInv(s.actor) && MayRun(s, isLetter, steps)
    requires NothingLost(s, isLetter, steps) && AllClean(steps) && AllCutOnce(s, isLetter, steps)
    ensures Run(s, isLetter, steps).actor.panicked == s.actor.panicked
    decreases |steps|
  {
    hide SysInv;
    hide TextsValid;
    hide SpeechInv;
    hide Take;
    hide MayStep;
    hide StepKeepsSpeech;
    hide CutsOnce;
    hide Clean;
    if steps != [] {
      var s1 := Take(s, isLetter, steps[0]);
      StepInBounds(s, isLetter, steps[0]);
      StepSpeech(s, isLetter, steps[0]);
      StepTexts(s, isLetter, steps[0]);
      Gateway.StepKeeps(s, isLetter, steps[0]);
      RunInBounds(s1, isLetter, steps[1..]);
    }
  }

  // No run of a new session slices out of range anywhere, in a commit inside or
  // outside an append or in a truncate, if none of its appends loses the speech,
  // the LLM's deltas are valid text, and no item is truncated a second time.
  lemma NothingPanics(cfg: Config, bufferMaxMs: nat, isLetter: Rune -> bool, steps: seq<Step>)
    requires MayRun(NewSystem(cfg, bufferMaxMs), isLetter, steps)
    requires NothingLost(NewSystem(cfg, bufferMaxMs), isLetter, steps)
    requires AllClean(steps) && AllCutOnce(NewSystem(cfg, bufferMaxMs), isLetter, steps)
    ensures !Run(NewSystem(cfg, bufferMaxMs), isLetter, steps).actor.panicked
  {
    hide SysInv;
    hide SpeechInv;
    NewSystemInv(cfg, bufferMaxMs);
    NewTexts(cfg, bufferMaxMs);
    NewSessionSpeech(cfg, bufferMaxMs);
    RunInBounds(NewSystem(cfg, bufferMaxMs), isLetter, steps);
  }
}
