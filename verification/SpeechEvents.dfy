// Every event of one append, and exactly when detector, turn machine, buffer and
// reserved item still agree after it. All events come from one pass of the
// detector, so those behind a commit describe a detector that the commit has
// reset and audio that it has taken (internal/session/session.go:735-792).
module SpeechEvents {
  import opened Audio
  import opened Events
  import opened Actor
  import opened SpeechState
  import Vad
  import InputBuffer
  import Turns
  import IdleTrim

  // ---- the guard -----------------------------------------------------------------------------------------

  function InputOf(ev: Vad.VadEvent): Turns.TurnInput {
    if ev.SpeechStart? then Turns.VadSpeechStart else Turns.VadSpeechEnd
  }

  // The events behind the first one that makes the turn machine commit.
  function Leftover(t: Turns.Turn, evs: seq<Vad.VadEvent>): seq<Vad.VadEvent>
    decreases |evs|
  {
    if evs == [] then []
    else
      var (t', d) := Turns.Step(t, InputOf(evs[0]));
      if d.commit then evs[1..] else Leftover(t', evs[1..])
  }

  // Where the last of the starts lies, or -1.
  function LatestStart(evs: seq<Vad.VadEvent>): int
    decreases |evs|
  {
    if evs == [] then -1
    else
      var later := LatestStart(evs[1..]);
      if later < 0 && evs[0].SpeechStart? then evs[0].offsetMs else later
  }

  // Left-over events that open a turn in which nobody is heard, or mark a start
  // ahead of all audio.
  predicate Misleads(evs: seq<Vad.VadEvent>, speaking: bool, prefixMs: nat) {
    evs != [] && (speaking || LatestStart(evs) > prefixMs)
  }

  // What is left over of an append when a commit takes place inside it.
  function LeftoverOf(st: State, pcm: Bytes): seq<Vad.VadEvent> {
    if st.detector.Some? then Leftover(st.turn, Vad.Process(st.detector.value, pcm).1) else []
  }

  // The append is handled to the end, and what a commit leaves over misleads.
  predicate Loses(st: State, pcm: Bytes, io: Io) {
    && st.detector.Some? && io.pushOk && !InputBuffer.Overflows(st.buffer, pcm)
    && Misleads(LeftoverOf(st, pcm), Vad.Process(st.detector.value, pcm).0.speaking, st.cfg.turnDetection.prefixMs)
  }

  predicate SameTurn(t: Turns.Turn, t': Turns.Turn) {
    && t'.mode == t.mode && t'.createResponse == t.createResponse && t'.interruptResponse == t.interruptResponse
    && t'.speaking == t.speaking && t'.pendingEot == t.pendingEot
    && t'.finalPending == t.finalPending && t'.finalTerminal == t.finalTerminal
  }

  predicate SameSettings(t: Turns.Turn, t': Turns.Turn) {
    t'.mode == t.mode && t'.createResponse == t.createResponse && t'.interruptResponse == t.interruptResponse
  }

  // Whether a response is active does not matter to commits.
  lemma {:induction false} LeftoverSame(t: Turns.Turn, t': Turns.Turn, evs: seq<Vad.VadEvent>)
    requires SameTurn(t, t')
    ensures Leftover(t, evs) == Leftover(t', evs)
    decreases |evs|
  {
    if evs != [] {
      StepSame(t, t', InputOf(evs[0]));
      LeftoverSame(Turns.Step(t, InputOf(evs[0])).0, Turns.Step(t', InputOf(evs[0])).0, evs[1..]);
    }
  }

  lemma StepSame(t: Turns.Turn, t': Turns.Turn, input: Turns.TurnInput)
    requires SameTurn(t, t') && (input.VadSpeechStart? || input.VadSpeechEnd?)
    ensures SameTurn(Turns.Step(t, input).0, Turns.Step(t', input).0)
    ensures Turns.Step(t, input).1.commit == Turns.Step(t', input).1.commit
  {
    hide Turns.Step;
    StartFields(t);
    StartFields(t');
    EndFields(t);
    EndFields(t');
  }

  lemma StartFields(t: Turns.Turn)
    ensures var (t', d) := Turns.Step(t, Turns.VadSpeechStart);
            && !d.commit
            && SameTurn(t', if t.mode.Manual? then t
                        else t.(speaking := true, pendingEot := false, finalPending := false))
  {
  }

  lemma EndFields(t: Turns.Turn)
    ensures var (t', d) := Turns.Step(t, Turns.VadSpeechEnd);
            var heard := t.speaking && !t.mode.Manual?;
            && d.commit == (heard && (t.mode.ServerVad? || (t.finalPending && t.finalTerminal)))
            && SameTurn(t', if !heard then t
                            else t.(speaking := false, pendingEot := !d.commit, finalPending := false))
  {
    hide Turns.EndsSentence;
  }

  // ---- opening and closing a speech -------------------------------------------------------------------------

  // After the start is marked and announced.
  function Started(st: State, offsetMs: nat): State {
    var st1 := ReserveSpeechItem(st);
    Emit(MarkStart(st1, offsetMs),
         SpeechStarted(InputBuffer.SpeechStartMs(st1.buffer, offsetMs, st1.cfg.turnDetection.prefixMs), st1.speechItem))
  }

  // A speech has been opened at offsetMs: marked, told to the turn machine and
  // announced under the reserved item.
  ghost predicate Opened(st: State, st': State, offsetMs: nat) {
    && st'.cfg == st.cfg && st'.detector == st.detector && st'.panicked == st.panicked
    && st'.buffer == InputBuffer.MarkSpeechStart(st.buffer, offsetMs, st.cfg.turnDetection.prefixMs)
    && st'.turn == st.turn.(speaking := true, pendingEot := false, finalPending := false)
    && st'.speechItem != 0 && |st'.trace| == |st.trace| + 1
    && st'.trace == st.trace + [st'.trace[|st.trace|]]
    && st'.trace[|st.trace|].SpeechStarted? && st'.trace[|st.trace|].item == st'.speechItem
  }

  lemma StartedOpens(st: State, offsetMs: nat)
    requires !st.turn.mode.Manual?
    ensures Opened(st, Started(st, offsetMs), offsetMs)
  {
  }

  lemma StartUnfolds(st: State, offsetMs: nat, io: Io)
    requires !st.turn.mode.Manual?
    ensures var d := Turns.Step(st.turn, Turns.VadSpeechStart).1;
            var st3 := Started(st, offsetMs);
            var st4 := if d.interrupt then Interrupt(st3, TurnDetected) else st3;
            OnSpeechStart(st, offsetMs, io)
              == if st4.turn.interruptResponse && st4.deferItem != 0 then DropDeferred(st4) else st4
  {
    hide Interrupt;
    hide MarkStart;
    hide ReserveSpeechItem;
    hide Turns.Step;
    StartDecision(st);
    var st1 := ReserveSpeechItem(st);
    ReserveAside(st);
    MarkStartAside(st1, offsetMs);
    var d := Turns.Step(st.turn, Turns.VadSpeechStart).1;
    var st3 := Started(st, offsetMs);
    var st4 := if d.interrupt then Interrupt(st3, TurnDetected) else st3;
    NothingToApply(st4, d, io);
    NothingToApply(DropDeferred(st4), d, io);
  }

  lemma NothingToApply(st: State, d: Turns.Decision, io: Io)
    requires !d.commit && !d.trigger && !d.armEndOfTurn && !d.armFinalWait
    ensures ApplyDecision(st, d, io) == st
  {
  }

  lemma ReserveAside(st: State)
    ensures ReserveSpeechItem(st).turn == st.turn && ReserveSpeechItem(st).buffer == st.buffer
    ensures ReserveSpeechItem(st).cfg == st.cfg
  {
  }

  lemma MarkStartAside(st: State, offsetMs: nat)
    ensures MarkStart(st, offsetMs).speechItem == st.speechItem
  {
    hide Turns.Step;
  }

  // The turn is listening, so it takes the start.
  lemma StartDecision(st: State)
    requires !st.turn.mode.Manual?
    ensures var d := Turns.Step(st.turn, Turns.VadSpeechStart).1;
            !d.commit && !d.trigger && !d.armEndOfTurn && !d.armFinalWait && d.emitSpeechStarted
  {
  }

  // A speech has been closed at offsetMs: the mark is set, and the end
  // announced under the reserved item.
  ghost predicate Closed(st: State, st': State, t: Turns.Turn, offsetMs: nat) {
    && st'.cfg == st.cfg && st'.detector == st.detector && st'.speechItem == st.speechItem && st'.turn == t
    && st'.panicked == st.panicked
    && st'.buffer == InputBuffer.MarkSpeechEnd(st.buffer, offsetMs, st.cfg.turnDetection.silenceMs)
    && |st'.trace| == |st.trace| + 1
    && st'.trace == st.trace + [st'.trace[|st.trace|]]
    && st'.trace[|st.trace|].SpeechStopped? && st'.trace[|st.trace|].item == st.speechItem
  }

  // After the end is marked and announced.
  function Stopped(st: State, offsetMs: nat): State {
    Emit(MarkEnd(st, offsetMs),
         SpeechStopped(InputBuffer.SpeechEndMs(st.buffer, offsetMs, st.cfg.turnDetection.silenceMs), st.speechItem))
  }

  lemma StoppedCloses(st: State, offsetMs: nat, io: Io)
    requires st.turn.speaking && Turns.TurnInv(st.turn)
    ensures var (t, d) := Turns.Step(st.turn, Turns.VadSpeechEnd);
            && !t.speaking && SameSettings(st.turn, t) && Turns.TurnInv(t)
            && Closed(st, Stopped(st, offsetMs), t, offsetMs)
            && OnSpeechEnd(st, offsetMs, io) == ApplyDecision(Stopped(st, offsetMs), d, io)
  {
    hide ApplyDecision;
    hide Turns.Step;
    EndDecision(st.turn);
  }

  lemma EndDecision(t: Turns.Turn)
    requires t.speaking && Turns.TurnInv(t)
    ensures var (t', d) := Turns.Step(t, Turns.VadSpeechEnd);
            d.emitSpeechStopped && !t'.speaking && SameSettings(t, t') && Turns.TurnInv(t')
  {
    hide Turns.EndsSentence;
  }

  // ---- before a commit ------------------------------------------------------------------------------------------

  // Part-way through the events of one append that nothing has committed yet; d
  // is the detector after all of it.
  ghost predicate Mid(st: State, d: Vad.Detector) {
    && InputBuffer.BufferInv(st.buffer) && st.buffer.pcm != []
    && Turns.TurnInv(st.turn) && !st.turn.mode.Manual? && FollowsSettings(st)
    && st.detector == Some(d) && Vad.DetectorInv(d) && |d.pending| < FRAME_BYTES
    && d.silenceMs == st.cfg.turnDetection.silenceMs
    && IdleTrim.Fed(d) <= Since(st.buffer)
    && StopsMatch(st.trace) && Talking(st)
    && (st.turn.speaking ==> st.buffer.segStartMs >= 0)
  }

  // An open turn has an item, announced by the latest speech_started.
  ghost predicate Talking(st: State) {
    st.turn.speaking ==> st.speechItem != 0 && OpenSpeech(st.trace) == st.speechItem
  }

  lemma MidAgrees(st: State, d: Vad.Detector)
    requires Mid(st, d) && st.turn.speaking == d.speaking
    ensures SpeechInv(st)
  {
    hide StopsMatch;
    hide OpenSpeech;
  }

  lemma MuteTalks(st: State, st': State)
    requires Mute(st, st') && StopsMatch(st.trace) && Talking(st)
    ensures StopsMatch(st'.trace) && Talking(st') && SameTurn(st.turn, st'.turn)
  {
    hide StopsMatch;
    hide OpenSpeech;
    var es := st'.trace[|st.trace|..];
    assert st'.trace == st.trace + es;
    QuietTail(st.trace, es);
  }

  lemma MuteMid(st: State, st': State, d: Vad.Detector)
    requires Mid(st, d) && Mute(st, st')
    ensures Mid(st', d)
  {
    hide StopsMatch;
    hide Talking;
    MuteTalks(st, st');
  }

  lemma OpenedTalks(st: State, st': State, offsetMs: nat)
    requires StopsMatch(st.trace) && Opened(st, st', offsetMs)
    ensures StopsMatch(st'.trace) && Talking(st')
  {
    hide StopsMatch;
    hide OpenSpeech;
    OpenSnoc(st.trace, st'.trace[|st.trace|]);
    StopsSnoc(st.trace, st'.trace[|st.trace|]);
  }

  lemma ClosedTalks(st: State, st': State, t: Turns.Turn, offsetMs: nat)
    requires StopsMatch(st.trace) && Talking(st) && st.turn.speaking && !t.speaking && Closed(st, st', t, offsetMs)
    ensures StopsMatch(st'.trace) && Talking(st')
  {
    hide StopsMatch;
    hide OpenSpeech;
    OpenSnoc(st.trace, st'.trace[|st.trace|]);
    StopsSnoc(st.trace, st'.trace[|st.trace|]);
  }

  lemma OffsetIsHeld(d: Vad.Detector, b: InputBuffer.Buffer, offsetMs: nat)
    requires IdleTrim.Fed(d) <= Since(b) && offsetMs <= d.elapsedMs
    ensures InputBuffer.OffsetHeld(b, offsetMs)
  {
  }

  // A start: whatever it interrupts or drops is mute.
  lemma StartEffect(st: State, offsetMs: nat, io: Io)
    requires !st.turn.mode.Manual?
    ensures Opened(st, Started(st, offsetMs), offsetMs) && Mute(Started(st, offsetMs), OnSpeechStart(st, offsetMs, io))
  {
    hide Opened;
    hide Interrupt;
    hide Started;
    hide Mute;
    StartedOpens(st, offsetMs);
    StartUnfolds(st, offsetMs, io);
    var d := Turns.Step(st.turn, Turns.VadSpeechStart).1;
    var st3 := Started(st, offsetMs);
    var st4 := if d.interrupt then Interrupt(st3, TurnDetected) else st3;
    SmallStepsAreMute(st3, [], VoiceLocked);
    InterruptIsMute(st3, TurnDetected);
    SmallStepsAreMute(st4, [], VoiceLocked);
    MuteTransitive(st3, st4, DropDeferred(st4));
  }

  lemma MidStart(st: State, d: Vad.Detector, offsetMs: nat, io: Io)
    requires Mid(st, d) && offsetMs <= d.elapsedMs
    ensures var st' := OnSpeechStart(st, offsetMs, io);
            Mid(st', d) && st'.cfg == st.cfg && st'.panicked == st.panicked
            && SameTurn(Turns.Step(st.turn, Turns.VadSpeechStart).0, st'.turn)
  {
    hide OnSpeechStart;
    hide Started;
    hide StopsMatch;
    hide Talking;
    hide QuietlyLonger;
    StartEffect(st, offsetMs, io);
    var st3 := Started(st, offsetMs);
    OpenedTalks(st, st3, offsetMs);
    OffsetIsHeld(d, st.buffer, offsetMs);
    InputBuffer.MarksKeep(st.buffer, offsetMs, st.cfg.turnDetection.prefixMs, 0);
    MuteMid(st3, OnSpeechStart(st, offsetMs, io), d);
  }

  // The state in which the decision of an end is applied.
  lemma MidStopped(st: State, d: Vad.Detector, offsetMs: nat, io: Io)
    requires Mid(st, d) && st.turn.speaking && offsetMs <= d.elapsedMs
    ensures var st1 := Stopped(st, offsetMs);
            var (t, dec) := Turns.Step(st.turn, Turns.VadSpeechEnd);
            && Mid(st1, d) && !st1.turn.speaking && st1.cfg == st.cfg && st1.turn == t && st1.panicked == st.panicked
            && OnSpeechEnd(st, offsetMs, io) == ApplyDecision(st1, dec, io)
  {
    hide ApplyDecision;
    hide Turns.Step;
    hide StopsMatch;
    hide Talking;
    hide Stopped;
    var st1 := Stopped(st, offsetMs);
    var t := Turns.Step(st.turn, Turns.VadSpeechEnd).0;
    StoppedCloses(st, offsetMs, io);
    ClosedTalks(st, st1, t, offsetMs);
    OffsetIsHeld(d, st.buffer, offsetMs);
    InputBuffer.MarksKeep(st.buffer, offsetMs, 0, st.cfg.turnDetection.silenceMs);
  }

  lemma MidEnd(st: State, d: Vad.Detector, offsetMs: nat, io: Io)
    requires Mid(st, d) && st.turn.speaking && offsetMs <= d.elapsedMs
    ensures var st' := OnSpeechEnd(st, offsetMs, io);
            var (t, dec) := Turns.Step(st.turn, Turns.VadSpeechEnd);
            && st'.cfg == st.cfg && st'.panicked == st.panicked && SameTurn(t, st'.turn) && !t.speaking
            && if dec.commit then Deaf(st', -1) else Mid(st', d)
  {
    hide ApplyDecision;
    hide Turns.Step;
    hide Mid;
    hide AfterCommit;
    hide Mute;
    hide Stopped;
    hide OnSpeechEnd;
    var st1 := Stopped(st, offsetMs);
    var (t, dec) := Turns.Step(st.turn, Turns.VadSpeechEnd);
    MidStopped(st, d, offsetMs, io);
    MidHasAudio(st1, d);
    ApplyEffect(st1, dec, io);
    var st' := OnSpeechEnd(st, offsetMs, io);
    if dec.commit {
      CommittedDeafens(st1, st', d);
    } else {
      MuteMid(st1, st', d);
      MuteIsSame(st1, st');
    }
  }

  lemma MuteIsSame(st: State, st': State)
    requires Mute(st, st')
    ensures st'.cfg == st.cfg && SameTurn(st.turn, st'.turn) && st'.buffer == st.buffer && st'.detector == st.detector
    ensures st'.panicked == st.panicked
  {
  }

  lemma MidHasAudio(st: State, d: Vad.Detector)
    requires Mid(st, d)
    ensures st.buffer.pcm != [] && InBounds(st.buffer)
  {
    InputBuffer.CommitIsExact(st.buffer);
  }

  // ---- behind a commit ----------------------------------------------------------------------------------------------

  // A commit has taken the audio and reset the detector, and events are left
  // over; mark is where they put the start.
  ghost predicate Deaf(st: State, mark: int) {
    && st.buffer.pcm == [] && 0 <= st.buffer.baseMs == st.buffer.headMs
    && st.buffer.segStartMs == mark && -1 <= st.buffer.segEndMs <= st.buffer.headMs
    && Turns.TurnInv(st.turn) && !st.turn.mode.Manual? && FollowsSettings(st)
    && st.detector.Some?
    && (var d := st.detector.value;
        && !d.speaking && d.elapsedMs == 0 && d.lastVoiced == 0 && d.pending == []
        && d.silenceMs == st.cfg.turnDetection.silenceMs)
    && StopsMatch(st.trace) && Talking(st)
  }

  lemma CommittedDeafens(st: State, st': State, d: Vad.Detector)
    requires Mid(st, d) && !st.turn.speaking && AfterCommit(st, st')
    ensures Deaf(st', -1) && !st'.turn.speaking && st'.cfg == st.cfg && SameTurn(st.turn, st'.turn)
    ensures st'.panicked == st.panicked
  {
    hide StopsMatch;
    hide OpenSpeech;
    var es := st'.trace[|st.trace|..];
    assert st'.trace == st.trace + es;
    QuietTail(st.trace, es);
  }

  lemma MuteDeaf(st: State, st': State, mark: int)
    requires Deaf(st, mark) && Mute(st, st')
    ensures Deaf(st', mark)
  {
    hide StopsMatch;
    hide Talking;
    MuteTalks(st, st');
  }

  // Where a left-over start is marked: not before the audio, of which there is
  // none, and as far ahead as its offset is past the prefix.
  function StaleMark(st: State, offsetMs: nat): int {
    InputBuffer.SpeechStartMs(st.buffer, offsetMs, st.cfg.turnDetection.prefixMs)
  }

  lemma DeafStart(st: State, mark: int, offsetMs: nat, io: Io)
    requires Deaf(st, mark)
    ensures var st' := OnSpeechStart(st, offsetMs, io);
            && Deaf(st', StaleMark(st, offsetMs)) && st'.turn.speaking
            && st'.cfg == st.cfg && st'.buffer.headMs == st.buffer.headMs && st'.panicked == st.panicked
  {
    hide OnSpeechStart;
    hide Started;
    hide StopsMatch;
    hide Talking;
    hide QuietlyLonger;
    StartEffect(st, offsetMs, io);
    var st3 := Started(st, offsetMs);
    OpenedTalks(st, st3, offsetMs);
    MuteDeaf(st3, OnSpeechStart(st, offsetMs, io), StaleMark(st, offsetMs));
  }

  lemma DeafStopped(st: State, mark: int, offsetMs: nat, io: Io)
    requires Deaf(st, mark) && st.turn.speaking
    ensures var st1 := Stopped(st, offsetMs);
            && Deaf(st1, mark) && !st1.turn.speaking && st1.cfg == st.cfg && st1.buffer.headMs == st.buffer.headMs
            && st1.panicked == st.panicked
            && OnSpeechEnd(st, offsetMs, io) == ApplyDecision(st1, Turns.Step(st.turn, Turns.VadSpeechEnd).1, io)
  {
    hide ApplyDecision;
    hide Turns.Step;
    hide StopsMatch;
    hide Talking;
    hide Stopped;
    StoppedCloses(st, offsetMs, io);
    ClosedTalks(st, Stopped(st, offsetMs), Turns.Step(st.turn, Turns.VadSpeechEnd).0, offsetMs);
  }

  lemma DeafEnd(st: State, mark: int, offsetMs: nat, io: Io)
    requires Deaf(st, mark) && st.turn.speaking
    ensures var st' := OnSpeechEnd(st, offsetMs, io);
            && Deaf(st', mark) && !st'.turn.speaking
            && st'.cfg == st.cfg && st'.buffer.headMs == st.buffer.headMs && st'.panicked == st.panicked
  {
    hide ApplyDecision;
    hide Turns.Step;
    hide Stopped;
    hide Mute;
    hide AfterCommit;
    hide OnSpeechEnd;
    var st1 := Stopped(st, offsetMs);
    DeafStopped(st, mark, offsetMs, io);
    ApplyEffect(st1, Turns.Step(st.turn, Turns.VadSpeechEnd).1, io);
    MuteDeaf(st1, OnSpeechEnd(st, offsetMs, io), mark);
    MuteIsSame(st1, OnSpeechEnd(st, offsetMs, io));
  }

  // The mark the events leave, from the one they found.
  function MarkAfter(evs: seq<Vad.VadEvent>, mark: int, headMs: int, prefixMs: nat): int {
    if LatestStart(evs) < 0 then mark
    else if LatestStart(evs) > prefixMs then headMs + LatestStart(evs) - prefixMs
    else headMs
  }

  lemma {:induction false} DeafEvents(st: State, mark: int, evs: seq<Vad.VadEvent>, io: Io, speaking': bool)
    requires Deaf(st, mark) && IdleTrim.Alternates(evs, st.turn.speaking, speaking')
    ensures var st' := OnVadEvents(st, evs, io);
            && Deaf(st', MarkAfter(evs, mark, st.buffer.headMs, st.cfg.turnDetection.prefixMs))
            && st'.turn.speaking == speaking' && st'.cfg == st.cfg && st'.buffer.headMs == st.buffer.headMs
            && st'.panicked == st.panicked
    decreases |evs|
  {
    hide Deaf;
    hide OnSpeechStart;
    hide OnSpeechEnd;
    if evs != [] {
      var rest := evs[1..];
      if evs[0].SpeechStart? {
        DeafStart(st, mark, evs[0].offsetMs, io);
        DeafIsCurrent(st, mark, evs[0].offsetMs);
        DeafEvents(OnSpeechStart(st, evs[0].offsetMs, io), StaleMark(st, evs[0].offsetMs), rest, io, speaking');
      } else {
        DeafEnd(st, mark, evs[0].offsetMs, io);
        DeafEvents(OnSpeechEnd(st, evs[0].offsetMs, io), mark, rest, io, speaking');
      }
    }
  }

  lemma DeafIsCurrent(st: State, mark: int, offsetMs: nat)
    requires Deaf(st, mark)
    ensures var prefix := st.cfg.turnDetection.prefixMs;
            StaleMark(st, offsetMs) == st.buffer.headMs + (if offsetMs > prefix then offsetMs - prefix else 0)
  {
  }

  // Agreement is back exactly when the turn is closed and the mark not ahead.
  lemma DeafAgrees(st: State, mark: int)
    requires Deaf(st, mark) && (mark == -1 || mark >= st.buffer.headMs)
    ensures SpeechInv(st) <==> !st.turn.speaking && mark <= st.buffer.headMs
  {
    hide StopsMatch;
    hide OpenSpeech;
  }

  // ---- all events -------------------------------------------------------------------------------------------------

  lemma NoneLeft(t: Turns.Turn)
    ensures Leftover(t, []) == []
  {
  }

  // All events of an append: agreement in the end exactly when what a commit
  // leaves over does not mislead.
  lemma {:induction false} MidEvents(st: State, d: Vad.Detector, evs: seq<Vad.VadEvent>, io: Io, from: nat)
    requires Mid(st, d) && IdleTrim.Alternates(evs, st.turn.speaking, d.speaking)
    requires d.silenceMs >= 0 && IdleTrim.AllWithin(evs, from, d.elapsedMs, d.silenceMs)
    ensures var st' := OnVadEvents(st, evs, io);
            var left := Leftover(st.turn, evs);
            && st'.cfg == st.cfg && st'.panicked == st.panicked
            && (SpeechInv(st') <==> !Misleads(left, d.speaking, st.cfg.turnDetection.prefixMs))
            && (left != [] ==> st'.turn.speaking == d.speaking
                               && Deaf(st', MarkAfter(left, -1, st'.buffer.headMs, st.cfg.turnDetection.prefixMs)))
    decreases |evs|
  {
    hide Mid;
    hide Deaf;
    hide MarkAfter;
    hide SpeechInv;
    hide OnSpeechStart;
    hide OnSpeechEnd;
    hide Turns.Step;
    hide Misleads;
    if evs == [] {
      MidAgrees(st, d);
      NothingMisleads(d.speaking, st.cfg.turnDetection.prefixMs);
    } else {
      assert IdleTrim.Within(evs[0], from, d.elapsedMs, d.silenceMs);
      IdleTrim.AllWithinRest(evs, from, d.elapsedMs, d.silenceMs);
      var rest := evs[1..];
      if evs[0].SpeechStart? {
        var st1 := OnSpeechStart(st, evs[0].offsetMs, io);
        MidStart(st, d, evs[0].offsetMs, io);
        StartIsOpen(st, d);
        LeftoverSame(Turns.Step(st.turn, Turns.VadSpeechStart).0, st1.turn, rest);
        MidEvents(st1, d, rest, io, from);
      } else {
        var st1 := OnSpeechEnd(st, evs[0].offsetMs, io);
        var (t, dec) := Turns.Step(st.turn, Turns.VadSpeechEnd);
        MidEnd(st, d, evs[0].offsetMs, io);
        if dec.commit {
          DeafListens(st1, -1);
          LeftBehind(st1, d, rest, io);
        } else {
          LeftoverSame(t, st1.turn, rest);
          MidEvents(st1, d, rest, io, from);
        }
      }
    }
  }

  lemma NothingMisleads(speaking: bool, prefixMs: nat)
    ensures !Misleads([], speaking, prefixMs)
  {
  }

  lemma StartIsOpen(st: State, d: Vad.Detector)
    requires Mid(st, d)
    ensures var (t, dec) := Turns.Step(st.turn, Turns.VadSpeechStart);
            t.speaking && !dec.commit
  {
  }

  lemma DeafListens(st: State, mark: int)
    requires Deaf(st, mark)
    ensures st.buffer.pcm == [] && st.detector.Some? && !st.detector.value.speaking
  {
  }

  lemma LeftBehind(st: State, d: Vad.Detector, evs: seq<Vad.VadEvent>, io: Io)
    requires Deaf(st, -1) && !st.turn.speaking && IdleTrim.Alternates(evs, false, d.speaking)
    ensures var st' := OnVadEvents(st, evs, io);
            && st'.cfg == st.cfg && st'.turn.speaking == d.speaking && st'.panicked == st.panicked
            && Deaf(st', MarkAfter(evs, -1, st'.buffer.headMs, st.cfg.turnDetection.prefixMs))
            && (SpeechInv(st') <==> !Misleads(evs, d.speaking, st.cfg.turnDetection.prefixMs))
  {
    hide OnVadEvents;
    hide StopsMatch;
    hide Talking;
    hide SpeechInv;
    DeafEvents(st, -1, evs, io, d.speaking);
    var mark := MarkAfter(evs, -1, st.buffer.headMs, st.cfg.turnDetection.prefixMs);
    DeafAgrees(OnVadEvents(st, evs, io), mark);
  }

  // ---- one append -------------------------------------------------------------------------------------------------

  function Heard(st: State, pcm: Bytes): State
    requires st.detector.Some?
  {
    st.(buffer := InputBuffer.Append(st.buffer, pcm), detector := Some(Vad.Process(st.detector.value, pcm).0))
  }

  function Trimmed(st: State): State {
    st.(buffer := InputBuffer.TrimIdle(st.buffer, st.cfg.turnDetection.prefixMs + FRAME_MS))
  }

  lemma AudioUnfolds(st: State, pcm: Bytes, io: Io)
    requires st.detector.Some? && io.pushOk && !InputBuffer.Overflows(st.buffer, pcm)
    ensures OnAudio(st, pcm, io) == Trimmed(OnVadEvents(Heard(st, pcm), Vad.Process(st.detector.value, pcm).1, io))
  {
    hide OnVadEvents;
    hide Vad.Process;
  }

  lemma HeardIsMid(st: State, pcm: Bytes)
    requires SpeechInv(st) && st.detector.Some? && pcm != [] && !InputBuffer.Overflows(st.buffer, pcm)
    ensures var (d, evs) := Vad.Process(st.detector.value, pcm);
            && Mid(Heard(st, pcm), d) && Heard(st, pcm).cfg == st.cfg && Heard(st, pcm).turn == st.turn
            && Heard(st, pcm).panicked == st.panicked
            && d.silenceMs >= 0
            && IdleTrim.Alternates(evs, st.turn.speaking, d.speaking)
            && IdleTrim.AllWithin(evs, st.detector.value.elapsedMs, d.elapsedMs, d.silenceMs)
  {
    hide Vad.Process;
    hide StopsMatch;
    hide OpenSpeech;
    IdleTrim.EventFacts(st.detector.value, pcm);
  }

  lemma NothingToProcess(d: Vad.Detector)
    requires |d.pending| < FRAME_BYTES
    ensures Vad.Process(d, []) == (d, [])
  {
    assert d.pending + [] == d.pending;
  }

  // Nothing appended, nothing heard.
  lemma SilentAppend(st: State, io: Io)
    requires SpeechInv(st) && st.detector.Some?
    ensures Heard(st, []) == st && OnVadEvents(st, [], io) == st && Vad.Process(st.detector.value, []).1 == []
  {
    hide StopsMatch;
    NothingToProcess(st.detector.value);
    assert st.buffer.pcm + [] == st.buffer.pcm;
  }

  // An empty buffer has nothing to trim.
  lemma TrimsNothing(st: State)
    requires st.buffer.pcm == []
    ensures Trimmed(st) == st
  {
    assert st.(buffer := st.buffer) == st;
  }

  // An append that is listened to: agreement afterwards exactly when nothing left
  // over misleads.
  lemma ListenedTo(st: State, pcm: Bytes, io: Io)
    requires SpeechInv(st) && st.detector.Some? && io.pushOk && !InputBuffer.Overflows(st.buffer, pcm)
    ensures SpeechInv(OnAudio(st, pcm, io)) <==> !Loses(st, pcm, io)
    ensures OnAudio(st, pcm, io).cfg == st.cfg && OnAudio(st, pcm, io).panicked == st.panicked
    ensures Loses(st, pcm, io) ==>
              var st' := OnAudio(st, pcm, io);
              && st'.turn.speaking == Vad.Process(st.detector.value, pcm).0.speaking
              && Deaf(st', MarkAfter(LeftoverOf(st, pcm), -1, st'.buffer.headMs, st.cfg.turnDetection.prefixMs))
  {
    hide SpeechInv;
    hide Mid;
    hide Deaf;
    hide MarkAfter;
    hide OnVadEvents;
    hide Vad.Process;
    hide Misleads;
    hide Trimmed;
    hide Heard;
    hide OnAudio;
    var (d, evs) := Vad.Process(st.detector.value, pcm);
    AudioUnfolds(st, pcm, io);
    NothingMisleads(d.speaking, st.cfg.turnDetection.prefixMs);
    if pcm == [] {
      SilentAppend(st, io);
      NoneLeft(st.turn);
      KeepTrimmed(st);
    } else {
      HeardIsMid(st, pcm);
      MidEvents(Heard(st, pcm), d, evs, io, st.detector.value.elapsedMs);
      var st2 := OnVadEvents(Heard(st, pcm), evs, io);
      TrimmedConfig(st2);
      if Leftover(st.turn, evs) != [] {
        DeafListens(st2, MarkAfter(Leftover(st.turn, evs), -1, st2.buffer.headMs, st.cfg.turnDetection.prefixMs));
        TrimsNothing(st2);
      } else {
        KeepTrimmed(st2);
      }
    }
  }

  lemma TrimmedConfig(st: State)
    ensures Trimmed(st).cfg == st.cfg && Trimmed(st).panicked == st.panicked
  {
  }

  lemma KeepTrimmed(st: State)
    ensures SpeechInv(st) ==> SpeechInv(Trimmed(st))
    ensures Trimmed(st).cfg == st.cfg && Trimmed(st).panicked == st.panicked
  {
    hide SpeechInv;
    if SpeechInv(st) { TrimSpeech(st, st.cfg.turnDetection.prefixMs + FRAME_MS); }
  }

  // Any append: detector, turn, buffer and reserved item still agree afterwards
  // if and only if what a commit inside it leaves over does not mislead.
  lemma AudioKeepsExactly(st: State, pcm: Bytes, io: Io)
    requires SpeechInv(st)
    ensures SpeechInv(OnAudio(st, pcm, io)) <==> !Loses(st, pcm, io)
  {
    hide SpeechInv;
    hide OnVadEvents;
    hide Vad.Process;
    hide LeftoverOf;
    hide Misleads;
    hide InputBuffer.TrimIdle;
    if InputBuffer.Overflows(st.buffer, pcm) {
      MuteKeeps(st, Fatal(st, BufferOverflow));
    } else if st.detector.Some? && io.pushOk {
      ListenedTo(st, pcm, io);
    } else {
      UnheardAudio(st, pcm);
    }
  }

  // What it looks like when it goes wrong: nothing is held, the detector is
  // silent, the turn says what the detector said before the commit, and the start
  // is marked as far ahead as its offset is past the prefix.
  lemma LostSpeech(st: State, pcm: Bytes, io: Io)
    requires SpeechInv(st) && Loses(st, pcm, io)
    ensures var st' := OnAudio(st, pcm, io);
            var start := LatestStart(LeftoverOf(st, pcm)) - st.cfg.turnDetection.prefixMs;
            && st'.buffer.pcm == [] && st'.detector.Some? && !st'.detector.value.speaking
            && st'.turn.speaking == Vad.Process(st.detector.value, pcm).0.speaking
            && st'.buffer.segStartMs == InputBuffer.TotalMs(st'.buffer) + (if start > 0 then start else 0)
  {
    hide SpeechInv;
    hide OnAudio;
    hide Vad.Process;
    ListenedTo(st, pcm, io);
    var left := LeftoverOf(st, pcm);
    LeftoverAlternates(st, pcm);
    if Vad.Process(st.detector.value, pcm).0.speaking { SpeakingStarts(left, false); }
    MarkIsAhead(OnAudio(st, pcm, io),
                MarkAfter(left, -1, OnAudio(st, pcm, io).buffer.headMs, st.cfg.turnDetection.prefixMs));
  }

  lemma MarkIsAhead(st: State, mark: int)
    requires Deaf(st, mark)
    ensures st.buffer.pcm == [] && st.detector.Some? && !st.detector.value.speaking
    ensures st.buffer.segStartMs == mark && InputBuffer.TotalMs(st.buffer) == st.buffer.headMs
  {
  }

  lemma LeftoverAlternates(st: State, pcm: Bytes)
    requires SpeechInv(st) && st.detector.Some?
    ensures LeftoverOf(st, pcm) != [] ==>
              IdleTrim.Alternates(LeftoverOf(st, pcm), false, Vad.Process(st.detector.value, pcm).0.speaking)
  {
    hide Vad.Process;
    hide StopsMatch;
    IdleTrim.EventFacts(st.detector.value, pcm);
    var (d, evs) := Vad.Process(st.detector.value, pcm);
    TailAlternates(st.turn, evs, d.speaking);
  }

  lemma {:induction false} TailAlternates(t: Turns.Turn, evs: seq<Vad.VadEvent>, speaking': bool)
    requires !t.mode.Manual? && IdleTrim.Alternates(evs, t.speaking, speaking')
    ensures Leftover(t, evs) != [] ==> IdleTrim.Alternates(Leftover(t, evs), false, speaking')
    decreases |evs|
  {
    hide Turns.Step;
    if evs != [] {
      TakesTurns(t);
      TailAlternates(Turns.Step(t, InputOf(evs[0])).0, evs[1..], speaking');
    }
  }

  lemma TakesTurns(t: Turns.Turn)
    requires !t.mode.Manual?
    ensures var (t1, d1) := Turns.Step(t, Turns.VadSpeechStart); t1.speaking && !d1.commit && t1.mode == t.mode
    ensures t.speaking ==> var (t2, d2) := Turns.Step(t, Turns.VadSpeechEnd); !t2.speaking && t2.mode == t.mode
  {
    hide Turns.EndsSentence;
  }

  lemma {:induction false} SpeakingStarts(evs: seq<Vad.VadEvent>, speaking: bool)
    requires IdleTrim.Alternates(evs, speaking, true) && !speaking
    ensures LatestStart(evs) >= 0
    decreases |evs|
  {
    if |evs| > 2 { SpeakingStarts(evs[2..], false); assert evs[1..][1..] == evs[2..]; }
  }

  // ---- after it went wrong ----------------------------------------------------------------------------------------

  // The turn may be open and the start marked ahead of all audio, while a detector
  // that has been reset listens to what is appended since.
  ghost predicate Adrift(st: State, mark: int) {
    && 0 <= st.buffer.baseMs == st.buffer.headMs <= st.buffer.segStartMs == mark
    && -1 <= st.buffer.segEndMs <= InputBuffer.TotalMs(st.buffer)
    && Turns.TurnInv(st.turn) && !st.turn.mode.Manual? && FollowsSettings(st)
    && st.detector.Some?
    && (var d := st.detector.value;
        && !d.speaking && Vad.DetectorInv(d) && |d.pending| < FRAME_BYTES
        && d.silenceMs == st.cfg.turnDetection.silenceMs && IdleTrim.Fed(d) == |st.buffer.pcm|)
    && StopsMatch(st.trace) && Talking(st)
  }

  lemma DeafIsAdrift(st: State, mark: int)
    requires Deaf(st, mark) && mark >= st.buffer.headMs
    ensures Adrift(st, mark) && st.buffer.pcm == []
  {
    hide StopsMatch;
    hide Talking;
  }

  // Where an append leaves a speech that was lost.
  lemma LostIsAdrift(st: State, pcm: Bytes, io: Io)
    requires SpeechInv(st) && Loses(st, pcm, io)
    ensures var st' := OnAudio(st, pcm, io);
            var start := LatestStart(LeftoverOf(st, pcm)) - st.cfg.turnDetection.prefixMs;
            && st'.cfg == st.cfg && st'.panicked == st.panicked && st'.buffer.pcm == []
            && Adrift(st', st'.buffer.headMs + (if start > 0 then start else 0))
  {
    hide SpeechInv;
    hide OnAudio;
    hide Vad.Process;
    hide Deaf;
    hide Adrift;
    ListenedTo(st, pcm, io);
    LostSpeech(st, pcm, io);
    var st' := OnAudio(st, pcm, io);
    var mark := MarkAfter(LeftoverOf(st, pcm), -1, st'.buffer.headMs, st.cfg.turnDetection.prefixMs);
    MarkIsAhead(st', mark);
    DeafIsAdrift(st', mark);
  }

  lemma MarkRestores(b: InputBuffer.Buffer, offsetMs: nat, prefixMs: nat)
    requires 0 <= b.baseMs <= b.headMs && InputBuffer.OffsetHeld(b, offsetMs)
    ensures InputBuffer.BufferInv(InputBuffer.MarkSpeechStart(b, offsetMs, prefixMs))
  {
  }

  // The first start that is heard puts everything right.
  lemma AdriftStart(st: State, mark: int, more: Bytes, offsetMs: nat, io: Io)
    requires Adrift(st, mark) && !InputBuffer.Overflows(st.buffer, more)
    requires offsetMs + FRAME_MS <= Vad.Process(st.detector.value, more).0.elapsedMs
    ensures var st1 := Heard(st, more);
            var st2 := OnSpeechStart(st1, offsetMs, io);
            && Mid(st2, Vad.Process(st.detector.value, more).0) && st2.cfg == st.cfg && st2.panicked == st.panicked
            && SameTurn(Turns.Step(st.turn, Turns.VadSpeechStart).0, st2.turn) && st2.turn.speaking
  {
    hide Vad.Process;
    hide OnSpeechStart;
    hide Started;
    hide StopsMatch;
    hide Talking;
    hide QuietlyLonger;
    hide IdleTrim.Alternates;
    hide IdleTrim.AllWithin;
    IdleTrim.EventFacts(st.detector.value, more);
    var st1 := Heard(st, more);
    var d := Vad.Process(st.detector.value, more).0;
    StartEffect(st1, offsetMs, io);
    var st3 := Started(st1, offsetMs);
    OpenedTalks(st1, st3, offsetMs);
    OffsetIsHeld(d, st1.buffer, offsetMs);
    MarkRestores(st1.buffer, offsetMs, st.cfg.turnDetection.prefixMs);
    TakesTurns(st.turn);
    MuteMid(st3, OnSpeechStart(st1, offsetMs, io), d);
  }

  // Audio without an event leaves it adrift; with one, everything agrees again
  // exactly when what a commit leaves over of this append does not mislead. Either
  // way nothing is sliced yet, and after an event the next commit is in bounds.
  lemma AdriftAppend(st: State, mark: int, more: Bytes, io: Io)
    requires Adrift(st, mark) && io.pushOk && !InputBuffer.Overflows(st.buffer, more)
    ensures var (d, evs) := Vad.Process(st.detector.value, more);
            var st' := OnAudio(st, more, io);
            && st'.cfg == st.cfg && st'.panicked == st.panicked
            && (evs == [] ==> Adrift(st', mark) && st'.buffer == st.buffer.(pcm := st.buffer.pcm + more))
            && (evs != [] ==>
                  && InBounds(st'.buffer)
                  && (SpeechInv(st') <==> !Misleads(Leftover(st.turn, evs), d.speaking, st.cfg.turnDetection.prefixMs)))
  {
    hide Vad.Process;
    hide OnAudio;
    hide OnVadEvents;
    hide Adrift;
    hide Heard;
    hide Trimmed;
    AdriftDetector(st, mark, more);
    var (d, evs) := Vad.Process(st.detector.value, more);
    AudioUnfolds(st, more, io);
    if evs == [] {
      StillAdrift(st, mark, more, io);
    } else {
      HeardAgain(st, mark, more, io);
    }
  }

  lemma AdriftDetector(st: State, mark: int, more: Bytes)
    requires Adrift(st, mark)
    ensures st.detector.Some?
    ensures var (d, evs) := Vad.Process(st.detector.value, more);
            && d.silenceMs >= 0
            && IdleTrim.Alternates(evs, false, d.speaking)
            && IdleTrim.AllWithin(evs, st.detector.value.elapsedMs, d.elapsedMs, d.silenceMs)
  {
    hide Vad.Process;
    hide StopsMatch;
    hide Talking;
    IdleTrim.EventFacts(st.detector.value, more);
  }

  lemma StillAdrift(st: State, mark: int, more: Bytes, io: Io)
    requires Adrift(st, mark) && !InputBuffer.Overflows(st.buffer, more) && Vad.Process(st.detector.value, more).1 == []
    ensures var st' := Trimmed(OnVadEvents(Heard(st, more), [], io));
            && st'.cfg == st.cfg && st'.panicked == st.panicked
            && Adrift(st', mark) && st'.buffer == st.buffer.(pcm := st.buffer.pcm + more)
  {
    hide Vad.Process;
    hide StopsMatch;
    hide Talking;
    IdleTrim.EventFacts(st.detector.value, more);
    var st1 := Heard(st, more);
    assert OnVadEvents(st1, [], io) == st1;
    assert Trimmed(st1) == st1;
    SameTalking(st, st1);
  }

  lemma SameTalking(st: State, st': State)
    requires Talking(st) && st'.turn == st.turn && st'.speechItem == st.speechItem && st'.trace == st.trace
    ensures Talking(st')
  {
  }

  lemma HeardAgain(st: State, mark: int, more: Bytes, io: Io)
    requires Adrift(st, mark) && !InputBuffer.Overflows(st.buffer, more) && Vad.Process(st.detector.value, more).1 != []
    ensures var (d, evs) := Vad.Process(st.detector.value, more);
            var st' := Trimmed(OnVadEvents(Heard(st, more), evs, io));
            && st'.cfg == st.cfg && st'.panicked == st.panicked && InBounds(st'.buffer)
            && (SpeechInv(st') <==> !Misleads(Leftover(st.turn, evs), d.speaking, st.cfg.turnDetection.prefixMs))
  {
    hide Vad.Process;
    hide Adrift;
    hide Mid;
    hide Deaf;
    hide SpeechInv;
    hide OnSpeechStart;
    hide OnSpeechEnd;
    hide Heard;
    hide Trimmed;
    hide Misleads;
    hide Turns.Step;
    hide MarkAfter;
    AdriftDetector(st, mark, more);
    var (d, evs) := Vad.Process(st.detector.value, more);
    var from := st.detector.value.elapsedMs;
    assert IdleTrim.Within(evs[0], from, d.elapsedMs, d.silenceMs);
    IdleTrim.AllWithinRest(evs, from, d.elapsedMs, d.silenceMs);
    AdriftStart(st, mark, more, evs[0].offsetMs, io);
    AdriftTurns(st, mark);
    var st2 := OnSpeechStart(Heard(st, more), evs[0].offsetMs, io);
    LeftoverSame(Turns.Step(st.turn, Turns.VadSpeechStart).0, st2.turn, evs[1..]);
    MidEvents(st2, d, evs[1..], io, from);
    var st3 := OnVadEvents(st2, evs[1..], io);
    NothingMisleads(d.speaking, st.cfg.turnDetection.prefixMs);
    TrimmedConfig(st3);
    if Leftover(st.turn, evs) != [] {
      DeafListens(st3, MarkAfter(Leftover(st2.turn, evs[1..]), -1, st3.buffer.headMs, st.cfg.turnDetection.prefixMs));
      TrimsNothing(st3);
    } else {
      KeepTrimmed(st3);
      AgreeingIsInBounds(Trimmed(st3));
    }
  }

  lemma AdriftTurns(st: State, mark: int)
    requires Adrift(st, mark)
    ensures !Turns.Step(st.turn, Turns.VadSpeechStart).1.commit
  {
    TakesTurns(st.turn);
  }

  lemma AgreeingIsInBounds(st: State)
    requires SpeechInv(st)
    ensures InBounds(st.buffer)
  {
    hide AudioInv;
    AudioIsInBounds(st);
  }

  // An append with at most one event leaves nothing over, so neither does one of
  // at most a frame.
  lemma SmallAppendLosesNothing(st: State, pcm: Bytes, io: Io)
    requires SpeechInv(st) && |pcm| <= FRAME_BYTES
    ensures !Loses(st, pcm, io)
  {
    hide StopsMatch;
    hide Vad.Process;
    hide Leftover;
    hide InputBuffer.Overflows;
    if st.detector.Some? {
      IdleTrim.OneFrame(st.detector.value, pcm);
      var evs := Vad.Process(st.detector.value, pcm).1;
      OneLeavesNothing(st.turn, evs);
    }
  }

  lemma OneLeavesNothing(t: Turns.Turn, evs: seq<Vad.VadEvent>)
    requires |evs| <= 1
    ensures Leftover(t, evs) == []
  {
    hide Turns.Step;
    if evs != [] { assert evs[1..] == []; }
  }
}
