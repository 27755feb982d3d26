// Speech over whole runs, and the tie between the actor's audio handling and
// the path on which idle trimming is unobservable
// (internal/session/session.go:735-856).
module SpeechRuns {
  import opened Audio
  import opened Utf8
  import opened Events
  import opened Actor
  import opened Pipelines
  import opened Gateway
  import opened SpeechState
  import opened SpeechEvents
  import Vad
  import InputBuffer
  import IdleTrim
  import Turns

  // The input is no append that loses the speech.
  predicate Keeps(st: State, input: Input) {
    input.GotAudio? ==> !Loses(st, input.pcm, input.io)
  }

  lemma HandledSpeech(st: State, input: Input)
    requires SpeechInv(st)
    ensures SpeechInv(Handled(st, input)) <==> Keeps(st, input)
  {
    hide SpeechInv;
    hide Mute;
    hide Loses;
    hide OnCommand;
    hide OnAudio;
    hide OnAsr;
    hide OnTranscriptTimeout;
    hide OnEndOfTurnTimer;
    hide OnDeferredTimeout;
    match input
    case GotCommand(cmd, io) => CommandKeeps(st, cmd, io);
    case GotAudio(pcm, io) => AudioKeepsExactly(st, pcm, io);
    case GotAsr(ev, io) => AsrKeeps(st, ev, io);
    case TranscriptTimer => TranscriptTimeoutIsMute(st); MuteKeeps(st, OnTranscriptTimeout(st));
    case EndOfTurnTimer(io) => EndOfTurnTimerKeeps(st, io);
    case DeferTimer => DeferredTimeoutIsMute(st); MuteKeeps(st, OnDeferredTimeout(st));
  }

  predicate StepKeepsSpeech(s: System, step: Step) {
    step.Handle? ==> Keeps(s.actor, step.input)
  }

  lemma StepSpeech(s: System, isLetter: Rune -> bool, step: Step)
    requires SpeechInv(s.actor) && MayStep(s, step)
    ensures SpeechInv(Take(s, isLetter, step).actor) <==> StepKeepsSpeech(s, step)
  {
    hide SpeechInv;
    hide Mute;
    hide Handled;
    hide OnPipeEvent;
    hide Act;
    hide Keeps;
    match step
    case Handle(input) => HandledSpeech(s.actor, input);
    case Deliver => PipeEventIsMute(s.actor, s.queue[0]); MuteKeeps(s.actor, OnPipeEvent(s.actor, s.queue[0]));
    case Stage(i, a) =>
    case CloseOutside =>
  }

  // No append of the run loses the speech.
  ghost predicate NothingLost(s: System, isLetter: Rune -> bool, steps: seq<Step>)
    requires MayRun(s, isLetter, steps)
    decreases |steps|
  {
    steps == []
    || (StepKeepsSpeech(s, steps[0]) && NothingLost(Take(s, isLetter, steps[0]), isLetter, steps[1..]))
  }

  // Detector, turn, buffer and reserved item agree after every step of the run.
  ghost predicate AlwaysAgrees(s: System, isLetter: Rune -> bool, steps: seq<Step>)
    requires MayRun(s, isLetter, steps)
    decreases |steps|
  {
    SpeechInv(s.actor) && (steps == [] || AlwaysAgrees(Take(s, isLetter, steps[0]), isLetter, steps[1..]))
  }

  lemma {:induction false} RunSpeech(s: System, isLetter: Rune -> bool, steps: seq<Step>)
    requires SpeechInv(s.actor) && MayRun(s, isLetter, steps) && NothingLost(s, isLetter, steps)
    ensures SpeechInv(Run(s, isLetter, steps).actor)
    decreases |steps|
  {
    hide SpeechInv;
    hide Take;
    hide MayStep;
    hide StepKeepsSpeech;
    if steps != [] {
      StepSpeech(s, isLetter, steps[0]);
      RunSpeech(Take(s, isLetter, steps[0]), isLetter, steps[1..]);
    }
  }

  lemma {:induction false} AgreementFrom(s: System, isLetter: Rune -> bool, steps: seq<Step>)
    requires SpeechInv(s.actor) && MayRun(s, isLetter, steps)
    ensures AlwaysAgrees(s, isLetter, steps) <==> NothingLost(s, isLetter, steps)
    decreases |steps|
  {
    hide SpeechInv;
    hide Take;
    hide MayStep;
    hide StepKeepsSpeech;
    if steps != [] {
      StepSpeech(s, isLetter, steps[0]);
      if StepKeepsSpeech(s, steps[0]) { AgreementFrom(Take(s, isLetter, steps[0]), isLetter, steps[1..]); }
    }
  }

  // All along a run of a new session everything agrees on whether the user is
  // speaking, if and only if no append of it loses the speech: brings a commit
  // and, behind it, events that mislead.
  lemma AgreementIsExact(cfg: Config, bufferMaxMs: nat, isLetter: Rune -> bool, steps: seq<Step>)
    requires MayRun(NewSystem(cfg, bufferMaxMs), isLetter, steps)
    ensures AlwaysAgrees(NewSystem(cfg, bufferMaxMs), isLetter, steps)
            <==> NothingLost(NewSystem(cfg, bufferMaxMs), isLetter, steps)
  {
    hide SpeechInv;
    NewSessionSpeech(cfg, bufferMaxMs);
    AgreementFrom(NewSystem(cfg, bufferMaxMs), isLetter, steps);
  }

  // After such a run the detector is speaking exactly when the turn machine is;
  // then audio is held, a segment is marked and an item reserved; and every
  // speech_stopped emitted so far answers the latest speech_started, naming its
  // item; a commit slices in bounds; and the turn machine runs as the settings say.
  lemma SpeechAgreesEverywhere(cfg: Config, bufferMaxMs: nat, isLetter: Rune -> bool, steps: seq<Step>)
    requires MayRun(NewSystem(cfg, bufferMaxMs), isLetter, steps)
    requires NothingLost(NewSystem(cfg, bufferMaxMs), isLetter, steps)
    ensures var st := Run(NewSystem(cfg, bufferMaxMs), isLetter, steps).actor;
            && (st.turn.speaking <==> st.detector.Some? && st.detector.value.speaking)
            && (st.turn.speaking ==> st.buffer.pcm != [] && st.buffer.segStartMs >= 0 && st.speechItem != 0)
            && InputBuffer.BufferInv(st.buffer) && InputBuffer.Sliceable(st.buffer)
            && StopsMatch(st.trace) && FollowsSettings(st)
  {
    NewSessionSpeech(cfg, bufferMaxMs);
    RunSpeech(NewSystem(cfg, bufferMaxMs), isLetter, steps);
    InputBuffer.CommitIsExact(Run(NewSystem(cfg, bufferMaxMs), isLetter, steps).actor.buffer);
  }

  ghost predicate SmallAppends(steps: seq<Step>) {
    forall i :: 0 <= i < |steps| && steps[i].Handle? && steps[i].input.GotAudio? ==> |steps[i].input.pcm| <= FRAME_BYTES
  }

  // Appends of at most one frame lose nothing.
  lemma {:induction false} SmallAppendsLoseNothing(s: System, isLetter: Rune -> bool, steps: seq<Step>)
    requires SpeechInv(s.actor) && MayRun(s, isLetter, steps) && SmallAppends(steps)
    ensures NothingLost(s, isLetter, steps)
    decreases |steps|
  {
    hide SpeechInv;
    hide Take;
    hide MayStep;
    hide Loses;
    if steps != [] {
      if steps[0].Handle? && steps[0].input.GotAudio? {
        SmallAppendLosesNothing(s.actor, steps[0].input.pcm, steps[0].input.io);
      }
      StepSpeech(s, isLetter, steps[0]);
      SmallAppendsLoseNothing(Take(s, isLetter, steps[0]), isLetter, steps[1..]);
    }
  }

  lemma EndIsHeld(st: State, pcm: Bytes)
    requires SpeechInv(st) && st.detector.Some? && !InputBuffer.Overflows(st.buffer, pcm)
    ensures var (d, evs) := Vad.Process(st.detector.value, pcm);
            var b := InputBuffer.Append(st.buffer, pcm);
            var silence := st.cfg.turnDetection.silenceMs;
            forall i :: 0 <= i < |evs| && evs[i].SpeechEnd? ==>
              InputBuffer.SpeechEndMs(b, evs[i].offsetMs, silence) == b.baseMs + evs[i].offsetMs + silence
  {
    hide Vad.Process;
    hide StopsMatch;
    hide IdleTrim.Alternates;
    IdleTrim.EventFacts(st.detector.value, pcm);
    var evs := Vad.Process(st.detector.value, pcm).1;
    var d := Vad.Process(st.detector.value, pcm).0;
    forall i | 0 <= i < |evs| && evs[i].SpeechEnd?
      ensures evs[i].offsetMs + d.silenceMs <= d.elapsedMs
    {
      assert IdleTrim.Within(evs[i], st.detector.value.elapsedMs, d.elapsedMs, d.silenceMs);
    }
  }

  // After every such run the audio behind the speech ends that the next append
  // brings is already held, so the clamp in markSpeechEnd never bites.
  lemma EndIsNeverClamped(cfg: Config, bufferMaxMs: nat, isLetter: Rune -> bool, steps: seq<Step>, pcm: Bytes)
    requires MayRun(NewSystem(cfg, bufferMaxMs), isLetter, steps)
    requires NothingLost(NewSystem(cfg, bufferMaxMs), isLetter, steps)
    ensures var st := Run(NewSystem(cfg, bufferMaxMs), isLetter, steps).actor;
            st.detector.Some? && !InputBuffer.Overflows(st.buffer, pcm) ==>
              var (d, evs) := Vad.Process(st.detector.value, pcm);
              var b := InputBuffer.Append(st.buffer, pcm);
              var silence := st.cfg.turnDetection.silenceMs;
              forall i :: 0 <= i < |evs| && evs[i].SpeechEnd? ==>
                InputBuffer.SpeechEndMs(b, evs[i].offsetMs, silence) == b.baseMs + evs[i].offsetMs + silence
  {
    hide SpeechInv;
    hide Vad.Process;
    NewSessionSpeech(cfg, bufferMaxMs);
    RunSpeech(NewSystem(cfg, bufferMaxMs), isLetter, steps);
    var st := Run(NewSystem(cfg, bufferMaxMs), isLetter, steps).actor;
    if st.detector.Some? && !InputBuffer.Overflows(st.buffer, pcm) {
      EndIsHeld(st, pcm);
    }
  }

  // ---- the audio path -----------------------------------------------------------------------------------

  function PathOf(st: State): IdleTrim.Path
    requires st.detector.Some?
  {
    IdleTrim.Path(st.buffer, st.detector.value)
  }

  // What a decision does to the audio path: nothing, or a commit.
  lemma ApplyPath(st: State, d: Turns.Decision, io: Io)
    requires st.detector.Some? && InputBuffer.BufferInv(st.buffer)
    ensures var st' := ApplyDecision(st, d, io);
            && st'.cfg == st.cfg && st'.detector.Some?
            && PathOf(st') == (if d.commit then IdleTrim.Step(PathOf(st), IdleTrim.CommitAudio, 0, true)
                               else PathOf(st))
  {
    hide ApplyDecision;
    hide QuietlyLonger;
    InputBuffer.CommitIsExact(st.buffer);
    ApplyEffect(st, d, io);
  }

  lemma StartPath(st: State, offsetMs: nat, io: Io)
    requires st.detector.Some? && !st.turn.mode.Manual?
    ensures var st' := OnSpeechStart(st, offsetMs, io);
            && st'.cfg == st.cfg && st'.detector == st.detector
            && st'.buffer == InputBuffer.MarkSpeechStart(st.buffer, offsetMs, st.cfg.turnDetection.prefixMs)
  {
    hide Started;
    hide QuietlyLonger;
    hide OnSpeechStart;
    StartEffect(st, offsetMs, io);
  }

  lemma EndPath(st: State, d: Vad.Detector, offsetMs: nat, io: Io)
    requires Mid(st, d) && st.turn.speaking && offsetMs <= d.elapsedMs
    ensures var st' := OnSpeechEnd(st, offsetMs, io);
            var silenceMs := st.cfg.turnDetection.silenceMs;
            var marked := IdleTrim.Path(InputBuffer.MarkSpeechEnd(st.buffer, offsetMs, silenceMs), d);
            && st'.cfg == st.cfg && st'.detector.Some?
            && PathOf(st') == if Turns.Step(st.turn, Turns.VadSpeechEnd).1.commit
                              then IdleTrim.Step(marked, IdleTrim.CommitAudio, 0, true) else marked
  {
    hide ApplyDecision;
    hide Stopped;
    hide IdleTrim.Step;
    hide Turns.Step;
    hide StopsMatch;
    hide Talking;
    MidStopped(st, d, offsetMs, io);
    StoppedCloses(st, offsetMs, io);
    ApplyPath(Stopped(st, offsetMs), Turns.Step(st.turn, Turns.VadSpeechEnd).1, io);
  }

  // The path after one append, and perhaps a commit.
  ghost predicate AfterAppend(p: IdleTrim.Path, p': IdleTrim.Path, pcm: Bytes, prefix: nat) {
    var fed := IdleTrim.Step(p, IdleTrim.Feed(pcm), prefix, true);
    p' == fed || p' == IdleTrim.Step(fed, IdleTrim.CommitAudio, prefix, true)
  }

  // Events with nothing left over: all are marked, and the last may commit.
  lemma {:induction false} EventsPath(st: State, d: Vad.Detector, evs: seq<Vad.VadEvent>, io: Io, from: nat)
    requires Mid(st, d) && IdleTrim.Alternates(evs, st.turn.speaking, d.speaking)
    requires d.silenceMs >= 0 && IdleTrim.AllWithin(evs, from, d.elapsedMs, d.silenceMs)
    requires Leftover(st.turn, evs) == []
    ensures var st' := OnVadEvents(st, evs, io);
            var b := IdleTrim.MarkAll(st.buffer, evs, st.cfg.turnDetection.prefixMs, st.cfg.turnDetection.silenceMs);
            && st'.cfg == st.cfg && st'.detector.Some?
            && (PathOf(st') == IdleTrim.Path(b, d)
                || (b.segStartMs >= 0
                    && PathOf(st') == IdleTrim.Step(IdleTrim.Path(b, d), IdleTrim.CommitAudio, 0, true)))
    decreases |evs|
  {
    hide Mid;
    hide OnSpeechStart;
    hide OnSpeechEnd;
    hide Turns.Step;
    hide IdleTrim.Step;
    if evs == [] {
      MidIsPath(st, d);
    } else {
      assert IdleTrim.Within(evs[0], from, d.elapsedMs, d.silenceMs);
      IdleTrim.AllWithinRest(evs, from, d.elapsedMs, d.silenceMs);
      MidIsPath(st, d);
      var rest := evs[1..];
      var offset := evs[0].offsetMs;
      if evs[0].SpeechStart? {
        var st1 := OnSpeechStart(st, offset, io);
        MidStart(st, d, offset, io);
        StartPath(st, offset, io);
        StartIsOpen(st, d);
        LeftoverSame(Turns.Step(st.turn, Turns.VadSpeechStart).0, st1.turn, rest);
        EventsPath(st1, d, rest, io, from);
      } else {
        var st1 := OnSpeechEnd(st, offset, io);
        MidEnd(st, d, offset, io);
        EndPath(st, d, offset, io);
        if Turns.Step(st.turn, Turns.VadSpeechEnd).1.commit {
          assert rest == [];
        } else {
          LeftoverSame(Turns.Step(st.turn, Turns.VadSpeechEnd).0, st1.turn, rest);
          EventsPath(st1, d, rest, io, from);
        }
      }
    }
  }

  lemma MidIsPath(st: State, d: Vad.Detector)
    requires Mid(st, d)
    ensures st.detector == Some(d) && !st.turn.mode.Manual? && (st.turn.speaking ==> st.buffer.segStartMs >= 0)
  {
  }

  // One append is one step of the path on which trimming is unobservable,
  // followed by a commit when its last event ends the turn.
  lemma AudioFollowsPath(st: State, pcm: Bytes, io: Io)
    requires SpeechInv(st) && st.detector.Some? && LeftoverOf(st, pcm) == [] && io.pushOk
    requires !InputBuffer.Overflows(st.buffer, pcm)
    ensures var st' := OnAudio(st, pcm, io);
            && st'.cfg == st.cfg && st'.detector.Some?
            && AfterAppend(PathOf(st), PathOf(st'), pcm, st.cfg.turnDetection.prefixMs)
  {
    hide Vad.Process;
    hide SpeechInv;
    hide OnAudio;
    hide OnVadEvents;
    hide Mid;
    hide AfterAppend;
    hide Leftover;
    var (d, evs) := Vad.Process(st.detector.value, pcm);
    AudioUnfolds(st, pcm, io);
    SameSilence(st, pcm);
    if pcm == [] {
      SilentAppend(st, io);
      SilentPath(st);
    } else {
      HeardIsMid(st, pcm);
      EventsPath(Heard(st, pcm), d, evs, io, st.detector.value.elapsedMs);
      TrimsPath(st, pcm, OnVadEvents(Heard(st, pcm), evs, io));
    }
  }

  lemma SilentPath(st: State)
    requires st.detector.Some? && Heard(st, []) == st && Vad.Process(st.detector.value, []).1 == []
    ensures Trimmed(st).cfg == st.cfg && AfterAppend(PathOf(st), PathOf(Trimmed(st)), [], st.cfg.turnDetection.prefixMs)
  {
    hide Vad.Process;
  }

  // Idle audio is dropped after the events, as on the path.
  lemma TrimsPath(st: State, pcm: Bytes, st2: State)
    requires st.detector.Some? && !InputBuffer.Overflows(st.buffer, pcm) && st2.cfg == st.cfg && st2.detector.Some?
    requires st.detector.value.silenceMs == st.cfg.turnDetection.silenceMs
    requires var (d, evs) := Vad.Process(st.detector.value, pcm);
             var b := IdleTrim.MarkAll(InputBuffer.Append(st.buffer, pcm), evs, st.cfg.turnDetection.prefixMs,
                                       st.cfg.turnDetection.silenceMs);
             PathOf(st2) == IdleTrim.Path(b, d)
             || (b.segStartMs >= 0 && PathOf(st2) == IdleTrim.Step(IdleTrim.Path(b, d), IdleTrim.CommitAudio, 0, true))
    ensures Trimmed(st2).cfg == st.cfg
    ensures AfterAppend(PathOf(st), PathOf(Trimmed(st2)), pcm, st.cfg.turnDetection.prefixMs)
  {
    hide Vad.Process;
    hide IdleTrim.MarkAll;
    var (d, evs) := Vad.Process(st.detector.value, pcm);
    var b := IdleTrim.MarkAll(InputBuffer.Append(st.buffer, pcm), evs, st.cfg.turnDetection.prefixMs,
                              st.cfg.turnDetection.silenceMs);
    if b.segStartMs >= 0 { CommitThenTrim(IdleTrim.Path(b, d), st.cfg.turnDetection.prefixMs); }
  }

  // A marked buffer is not trimmed, and neither is one just committed.
  lemma CommitThenTrim(p: IdleTrim.Path, prefix: nat)
    requires p.buffer.segStartMs >= 0
    ensures InputBuffer.TrimIdle(p.buffer, prefix + FRAME_MS) == p.buffer
    ensures var c := IdleTrim.Step(p, IdleTrim.CommitAudio, prefix, true).buffer;
            InputBuffer.TrimIdle(c, prefix + FRAME_MS) == c
    ensures IdleTrim.Step(p, IdleTrim.CommitAudio, prefix, true) == IdleTrim.Step(p, IdleTrim.CommitAudio, 0, true)
  {
  }

  lemma SameSilence(st: State, pcm: Bytes)
    requires SpeechInv(st) && st.detector.Some?
    ensures Vad.Process(st.detector.value, pcm).0.silenceMs == st.detector.value.silenceMs
            == st.cfg.turnDetection.silenceMs
  {
    hide StopsMatch;
    Vad.DrainLeavesPartialFrame(st.detector.value.(pending := st.detector.value.pending + pcm));
  }

  // Every other input leaves the path alone, commits, clears, or (a change of
  // turn_detection) starts a new one.
  lemma OutsideFollowsPath(st: State, input: Turns.TurnInput, io: Io)
    requires st.detector.Some? && InputBuffer.BufferInv(st.buffer)
    ensures var st' := StepAndApply(st, input, io);
            st'.detector.Some?
            && (PathOf(st') == PathOf(st) || PathOf(st') == IdleTrim.Step(PathOf(st), IdleTrim.CommitAudio, 0, true))
  {
    hide ApplyDecision;
    hide Turns.Step;
    hide IdleTrim.Step;
    var (t, d) := Turns.Step(st.turn, input);
    ApplyPath(Stepped(st, input), d, io);
  }
}
