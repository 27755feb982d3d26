// What becomes of a speech that an append has lost, and a run in which it is lost
// (internal/session/session.go:735-856, internal/session/buffer.go:51-94).
module SpeechLost {
  import opened Audio
  import opened Utf8
  import opened Conversations
  import opened Events
  import opened Actor
  import opened Gateway
  import opened SessionRuns
  import opened SpeechState
  import opened SpeechEvents
  import Vad
  import InputBuffer
  import Turns

  // ---- the next commit ------------------------------------------------------------------------------------

  // A commit slices out of range exactly when there is audio and the start is
  // marked ahead of it.
  lemma CommitPanics(st: State, io: Io)
    requires !st.panicked && 0 <= st.buffer.headMs <= st.buffer.segStartMs
    requires -1 <= st.buffer.segEndMs <= InputBuffer.TotalMs(st.buffer)
    ensures Commit(st, io).st.panicked <==> st.buffer.pcm != [] && st.buffer.segStartMs > InputBuffer.TotalMs(st.buffer)
  {
    hide AppendItem;
    hide Vad.Reset;
  }

  // Appends one after the other.
  function Appends(st: State, chunks: seq<Bytes>, io: Io): State
    decreases |chunks|
  {
    if chunks == [] then st else Appends(OnAudio(st, chunks[0], io), chunks[1..], io)
  }

  // All of them are taken, and the detector reports nothing.
  predicate Unheard(st: State, chunks: seq<Bytes>, io: Io)
    decreases |chunks|
  {
    chunks == []
    || (st.detector.Some? && io.pushOk && !InputBuffer.Overflows(st.buffer, chunks[0])
        && Vad.Process(st.detector.value, chunks[0]).1 == []
        && Unheard(OnAudio(st, chunks[0], io), chunks[1..], io))
  }

  lemma {:induction false} QuietStaysAdrift(st: State, mark: int, chunks: seq<Bytes>, io: Io)
    requires Adrift(st, mark) && Unheard(st, chunks, io)
    ensures var st' := Appends(st, chunks, io);
            && Adrift(st', mark) && st'.cfg == st.cfg && st'.panicked == st.panicked
            && st'.buffer == st.buffer.(pcm := st.buffer.pcm + Vad.Concat(chunks))
    decreases |chunks|
  {
    hide Adrift;
    hide OnAudio;
    hide Vad.Process;
    if chunks == [] {
      assert st.buffer.pcm + [] == st.buffer.pcm;
    } else {
      AdriftAppend(st, mark, chunks[0], io);
      QuietStaysAdrift(OnAudio(st, chunks[0], io), mark, chunks[1..], io);
      assert st.buffer.pcm + chunks[0] + Vad.Concat(chunks[1..])
             == st.buffer.pcm + (chunks[0] + Vad.Concat(chunks[1..]));
    }
  }

  lemma AdriftCommit(st: State, mark: int, io: Io)
    requires Adrift(st, mark) && !st.panicked
    ensures Commit(st, io).st.panicked <==> st.buffer.pcm != [] && mark > InputBuffer.TotalMs(st.buffer)
  {
    hide Commit;
    hide StopsMatch;
    hide Talking;
    CommitPanics(st, io);
  }

  // When an append has lost a speech, and any appends follow in which the detector
  // hears nothing: the next commit slices out of range exactly when the start was
  // left over later than the prefix by more than the milliseconds that followed.
  lemma LostCommitPanics(st: State, pcm: Bytes, chunks: seq<Bytes>, io: Io)
    requires SpeechInv(st) && !st.panicked && Loses(st, pcm, io) && Unheard(OnAudio(st, pcm, io), chunks, io)
    ensures var since := Vad.Concat(chunks);
            Commit(Appends(OnAudio(st, pcm, io), chunks, io), io).st.panicked
            <==> since != [] && LatestStart(LeftoverOf(st, pcm)) - st.cfg.turnDetection.prefixMs > BytesToMs(|since|)
  {
    hide SpeechInv;
    hide OnAudio;
    hide Adrift;
    hide Commit;
    hide Unheard;
    hide Loses;
    var st1 := OnAudio(st, pcm, io);
    LostIsAdrift(st, pcm, io);
    LosingListens(st, pcm, io);
    var start := LatestStart(LeftoverOf(st, pcm)) - st.cfg.turnDetection.prefixMs;
    var mark := st1.buffer.headMs + (if start > 0 then start else 0);
    QuietStaysAdrift(st1, mark, chunks, io);
    AdriftCommit(Appends(st1, chunks, io), mark, io);
    assert [] + Vad.Concat(chunks) == Vad.Concat(chunks);
  }

  lemma LosingListens(st: State, pcm: Bytes, io: Io)
    requires Loses(st, pcm, io)
    ensures st.detector.Some?
  {
  }

  // The next append in which the detector hears something finds the speech again,
  // unless it loses it in turn; either way the next commit slices in bounds.
  lemma NextEventFinds(st: State, pcm: Bytes, chunks: seq<Bytes>, more: Bytes, io: Io)
    requires SpeechInv(st) && !st.panicked && Loses(st, pcm, io) && Unheard(OnAudio(st, pcm, io), chunks, io)
    requires var st1 := Appends(OnAudio(st, pcm, io), chunks, io);
             && st1.detector.Some? && !InputBuffer.Overflows(st1.buffer, more)
             && Vad.Process(st1.detector.value, more).1 != []
    ensures var st1 := Appends(OnAudio(st, pcm, io), chunks, io);
            var st2 := OnAudio(st1, more, io);
            && (SpeechInv(st2) <==> !Loses(st1, more, io))
            && !st2.panicked && !Commit(st2, io).st.panicked
  {
    hide SpeechInv;
    hide OnAudio;
    hide Adrift;
    hide Commit;
    hide Unheard;
    hide Vad.Process;
    hide InputBuffer.Overflows;
    hide Misleads;
    var st0 := OnAudio(st, pcm, io);
    LostIsAdrift(st, pcm, io);
    var start := LatestStart(LeftoverOf(st, pcm)) - st.cfg.turnDetection.prefixMs;
    var mark := st0.buffer.headMs + (if start > 0 then start else 0);
    QuietStaysAdrift(st0, mark, chunks, io);
    var st1 := Appends(st0, chunks, io);
    AdriftAppend(st1, mark, more, io);
    InBoundsCommit(OnAudio(st1, more, io), io);
  }

  lemma InBoundsCommit(st: State, io: Io)
    requires InBounds(st.buffer)
    ensures Commit(st, io).st.panicked == st.panicked
  {
    hide AppendItem;
    hide Vad.Reset;
  }

  // ---- a run in which it happens ----------------------------------------------------------------------------

  // Twenty milliseconds of a loud and of a silent tone.
  function Loud(): Bytes {
    seq(960, i => if i % 2 == 0 then 0 else 64)
  }

  function Quiet(): Bytes {
    seq(960, i => 0)
  }

  lemma {:induction false} LoudPower(n: nat)
    requires n <= 480
    ensures SumSquares(Loud(), n) == 268435456 * n
  {
    if n > 0 {
      LoudPower(n - 1);
      assert Sample(Loud(), n - 1) == 16384;
    }
  }

  lemma {:induction false} QuietPower(n: nat)
    requires n <= 480
    ensures SumSquares(Quiet(), n) == 0
  {
    if n > 0 {
      QuietPower(n - 1);
      assert Sample(Quiet(), n - 1) == 0;
    }
  }

  const VAD: Turns.TurnDetection := Turns.TurnDetection(Turns.ServerVad, false, false, 0.5, 0, 20)
  const LISTENING: Config := Config(VAD, false, false, [])
  const FINE: Io := Io(true, true)

  lemma Levels()
    ensures var d := Vad.NewDetector(0.5, 20);
            && LevelAtLeast(Loud(), d.enterPower) && LevelAtLeast(Loud(), d.exitPower)
            && !LevelAtLeast(Quiet(), d.enterPower) && !LevelAtLeast(Quiet(), d.exitPower)
  {
    LoudPower(480);
    QuietPower(480);
    Thresholds();
  }

  lemma Thresholds()
    ensures var d := Vad.NewDetector(0.5, 20);
            0.0 < d.exitPower <= d.enterPower <= 268435456.0
  {
    var t := 0.5 * 0.1 * 32767.0;
    assert t == 1638.35;
    var u := 0.5 * 0.1 * 0.6 * 32767.0;
    assert u == 983.01;
  }

  // One frame off the front of what is pending.
  lemma FirstFrame(d: Vad.Detector, frame: Bytes, rest: Bytes)
    requires |frame| == FRAME_BYTES && d.pending == frame + rest
    ensures Vad.NextFrame(d) == Vad.OnFrame(d.(pending := rest), frame)
    ensures var (d1, e1) := Vad.OnFrame(d.(pending := rest), frame);
            Vad.Drain(d) == (Vad.Drain(d1).0, e1 + Vad.Drain(d1).1)
  {
    hide Vad.OnFrame;
    assert d.pending[..FRAME_BYTES] == frame && d.pending[FRAME_BYTES..] == rest;
  }

  lemma LoudStarts(d: Vad.Detector)
    requires !d.speaking && LevelAtLeast(Loud(), d.enterPower)
    ensures |Loud()| == FRAME_BYTES
    ensures var now := d.elapsedMs + FRAME_MS;
            Vad.OnFrame(d, Loud())
              == (d.(elapsedMs := now, speaking := true, lastVoiced := now), [Vad.SpeechStart(d.elapsedMs)])
  {
    hide LevelAtLeast;
  }

  lemma QuietEnds(d: Vad.Detector)
    requires d.speaking && !LevelAtLeast(Quiet(), d.exitPower) && d.elapsedMs + FRAME_MS - d.lastVoiced >= d.silenceMs
    ensures |Quiet()| == FRAME_BYTES
    ensures Vad.OnFrame(d, Quiet())
         == (d.(elapsedMs := d.elapsedMs + FRAME_MS, speaking := false), [Vad.SpeechEnd(d.lastVoiced)])
  {
    hide LevelAtLeast;
  }

  lemma NothingDrains(d: Vad.Detector)
    requires d.pending == []
    ensures Vad.Drain(d) == (d, [])
  {
  }

  // Speech, one silent frame, and speech again: the detector reports the end and
  // the new start in one pass.
  lemma BargeIn()
    ensures var (d, evs) := Vad.Process(Vad.NewDetector(0.5, 20), Loud() + Quiet() + Loud());
            d.speaking && evs == [Vad.SpeechStart(0), Vad.SpeechEnd(20), Vad.SpeechStart(40)]
  {
    hide LevelAtLeast;
    hide Loud;
    hide Quiet;
    hide Power;
    hide Vad.Drain;
    hide Vad.NextFrame;
    hide Vad.OnFrame;
    Levels();
    Lengths();
    var d := Vad.NewDetector(0.5, 20);
    var d0 := d.(pending := Loud() + (Quiet() + Loud()));
    assert [] + (Loud() + Quiet() + Loud()) == Loud() + (Quiet() + Loud());
    FirstFrame(d0, Loud(), Quiet() + Loud());
    LoudStarts(d.(pending := Quiet() + Loud()));
    var d1 := d.(pending := Quiet() + Loud(), elapsedMs := 20, speaking := true, lastVoiced := 20);
    FirstFrame(d1, Quiet(), Loud());
    QuietEnds(d1.(pending := Loud()));
    var d2 := d.(pending := Loud(), elapsedMs := 40, speaking := false, lastVoiced := 20);
    assert Loud() == Loud() + [];
    FirstFrame(d2, Loud(), []);
    LoudStarts(d2.(pending := []));
    var d3 := d.(pending := [], elapsedMs := 60, speaking := true, lastVoiced := 60);
    NothingDrains(d3);
    assert [Vad.SpeechStart(40)] + [] == [Vad.SpeechStart(40)];
    assert Vad.Drain(d2) == (d3, [Vad.SpeechStart(40)]);
    assert Vad.Drain(d1) == (d3, [Vad.SpeechEnd(20)] + [Vad.SpeechStart(40)]);
    assert Vad.Drain(d0) == (d3, [Vad.SpeechStart(0)] + ([Vad.SpeechEnd(20)] + [Vad.SpeechStart(40)]));
  }

  lemma Lengths()
    ensures |Loud()| == 960 && |Quiet()| == 960
  {
  }

  // The end commits, and the new start is left over.
  lemma StartIsLeft()
    ensures Leftover(Turns.NewTurn(VAD), [Vad.SpeechStart(0), Vad.SpeechEnd(20), Vad.SpeechStart(40)])
            == [Vad.SpeechStart(40)]
  {
    var evs := [Vad.SpeechStart(0), Vad.SpeechEnd(20), Vad.SpeechStart(40)];
    assert evs[1..] == [Vad.SpeechEnd(20), Vad.SpeechStart(40)] && evs[1..][1..] == [Vad.SpeechStart(40)];
    var t1 := Turns.Step(Turns.NewTurn(VAD), Turns.VadSpeechStart).0;
    assert Leftover(t1, evs[1..]) == [Vad.SpeechStart(40)];
  }

  lemma ItIsLost(bufferMaxMs: nat)
    requires bufferMaxMs >= 100
    ensures var st := NewSession(LISTENING, bufferMaxMs);
            var pcm := Loud() + Quiet() + Loud();
            Loses(st, pcm, FINE) && LatestStart(LeftoverOf(st, pcm)) == 40
  {
    hide Vad.Process;
    hide Leftover;
    hide Loud;
    hide Quiet;
    Lengths();
    BargeIn();
    StartIsLeft();
    var evs := [Vad.SpeechStart(40)];
    assert evs[1..] == [];
    assert LatestStart(evs) == 40;
  }

  // ---- the run of the whole session ---------------------------------------------------------------------------

  // No response is running and none is created, so nothing cancels the session;
  // the buffer may hold cap bytes.
  predicate Calm(st: State, cap: int) {
    st.active.None? && !st.cancelled && !st.turn.createResponse && st.buffer.maxBytes == cap
  }

  lemma StartIsCalm(st: State, cap: int, offsetMs: nat, io: Io)
    requires Calm(st, cap) && !st.turn.mode.Manual?
    ensures Calm(OnSpeechStart(st, offsetMs, io), cap)
    ensures OnSpeechStart(st, offsetMs, io).turn.mode == st.turn.mode
  {
    hide OnSpeechStart;
    hide Interrupt;
    StartUnfolds(st, offsetMs, io);
    NobodyToInterrupt(Started(st, offsetMs));
  }

  lemma NobodyToInterrupt(st: State)
    requires st.active.None?
    ensures Interrupt(st, TurnDetected) == st
  {
    hide FinishResponse;
  }

  lemma EndIsCalm(st: State, cap: int, offsetMs: nat)
    requires Calm(st, cap) && st.turn.mode.ServerVad?
    ensures Calm(OnSpeechEnd(st, offsetMs, FINE), cap)
    ensures OnSpeechEnd(st, offsetMs, FINE).turn.mode == st.turn.mode
  {
    hide ApplyDecision;
    hide Turns.Step;
    hide InputBuffer.SpeechEndMs;
    EndTriggersNothing(st.turn);
    var endMs := InputBuffer.SpeechEndMs(st.buffer, offsetMs, st.cfg.turnDetection.silenceMs);
    var d := Turns.Step(st.turn, Turns.VadSpeechEnd).1;
    var st1 := MarkEnd(st, offsetMs);
    var st2 := if d.emitSpeechStopped then Emit(st1, SpeechStopped(endMs, st1.speechItem)) else st1;
    DecisionIsCalm(st2, cap, d);
  }

  lemma EndTriggersNothing(t: Turns.Turn)
    requires !t.createResponse && t.mode.ServerVad?
    ensures var (t', d) := Turns.Step(t, Turns.VadSpeechEnd);
            !t'.createResponse && t'.mode == t.mode && !d.trigger && !d.deferTrigger
  {
    hide Turns.EndsSentence;
  }

  lemma DecisionIsCalm(st: State, cap: int, d: Turns.Decision)
    requires Calm(st, cap) && !d.trigger && !d.deferTrigger
    ensures Calm(ApplyDecision(st, d, FINE), cap) && ApplyDecision(st, d, FINE).turn.mode == st.turn.mode
  {
    hide Commit;
    hide StartResponse;
    CommitIsCalm(st, cap);
    CommitIsCalm(ArmEndOfTurn(st), cap);
  }

  lemma CommitIsCalm(st: State, cap: int)
    requires Calm(st, cap)
    ensures Calm(Commit(st, FINE).st, cap) && Commit(st, FINE).st.turn.mode == st.turn.mode
  {
    hide AppendItem;
    hide Vad.Reset;
    hide InputBuffer.Sliceable;
    hide InputBuffer.CommitStartMs;
    hide InputBuffer.CommitEndMs;
  }

  lemma {:induction false} EventsAreCalm(st: State, cap: int, evs: seq<Vad.VadEvent>)
    requires Calm(st, cap) && st.turn.mode.ServerVad?
    ensures Calm(OnVadEvents(st, evs, FINE), cap)
    decreases |evs|
  {
    hide Calm;
    hide OnSpeechStart;
    hide OnSpeechEnd;
    if evs != [] {
      if evs[0].SpeechStart? {
        StartIsCalm(st, cap, evs[0].offsetMs, FINE);
        EventsAreCalm(OnSpeechStart(st, evs[0].offsetMs, FINE), cap, evs[1..]);
      } else {
        EndIsCalm(st, cap, evs[0].offsetMs);
        EventsAreCalm(OnSpeechEnd(st, evs[0].offsetMs, FINE), cap, evs[1..]);
      }
    }
  }

  lemma AppendIsCalm(st: State, cap: int, pcm: Bytes)
    requires Calm(st, cap) && st.turn.mode.ServerVad? && st.detector.Some? && !InputBuffer.Overflows(st.buffer, pcm)
    ensures Calm(OnAudio(st, pcm, FINE), cap)
  {
    hide OnVadEvents;
    hide Vad.Process;
    AudioUnfolds(st, pcm, FINE);
    EventsAreCalm(Heard(st, pcm), cap, Vad.Process(st.detector.value, pcm).1);
  }

  // A client commit panics with the slice, and stays so.
  lemma ClientCommitPanics(st: State)
    requires st.panicked || Commit(st, FINE).st.panicked
    ensures OnCommand(st, CommitAudio, FINE).panicked
  {
    hide Commit;
    hide Stepped;
    hide StartResponse;
    SteppedCommits(st);
  }

  lemma SteppedCommits(st: State)
    requires st.panicked || Commit(st, FINE).st.panicked
    ensures Commit(Stepped(st, Turns.ClientCommit), FINE).st.panicked
  {
    hide AppendItem;
    hide Vad.Reset;
    hide Turns.Step;
    hide InputBuffer.Clear;
    hide InputBuffer.Sliceable;
    hide InputBuffer.CommitStartMs;
    hide InputBuffer.CommitEndMs;
  }

  // One sample more fits, and the detector does not hear it.
  lemma AfterTheAppend(st: State, pcm: Bytes)
    requires SpeechInv(st) && Loses(st, pcm, FINE) && Calm(OnAudio(st, pcm, FINE), 4800)
    ensures Unheard(OnAudio(st, pcm, FINE), [[0, 0]], FINE)
  {
    hide SpeechInv;
    hide OnAudio;
    hide Vad.Process;
    hide Deaf;
    var st1 := OnAudio(st, pcm, FINE);
    ListenedTo(st, pcm, FINE);
    SampleIsQuiet(st1, MarkAfter(LeftoverOf(st, pcm), -1, st1.buffer.headMs, st.cfg.turnDetection.prefixMs));
    assert [[0, 0]][1..] == [];
  }

  lemma SampleIsQuiet(st: State, mark: int)
    requires Deaf(st, mark) && Calm(st, 4800)
    ensures st.detector.Some? && Vad.Process(st.detector.value, [0, 0]).1 == []
            && !InputBuffer.Overflows(st.buffer, [0, 0])
  {
    hide StopsMatch;
    hide Talking;
    assert [] + [0, 0] == [0, 0];
  }

  function Steps(): seq<Step> {
    [Handle(GotAudio(Loud() + Quiet() + Loud(), FINE)), Handle(GotAudio([0, 0], FINE)),
     Handle(GotCommand(CommitAudio, FINE))]
  }

  // Ordinary audio ends a session out of range: one append in which the user
  // stops and speaks again, one more sample, and a commit.
  lemma ItHappens(isLetter: Rune -> bool)
    ensures var s := NewSystem(LISTENING, 100);
            MayRun(s, isLetter, Steps()) && Run(s, isLetter, Steps()).actor.panicked
  {
    hide OnAudio;
    hide OnCommand;
    hide Loud;
    hide Quiet;
    hide Loses;
    hide Unheard;
    hide Commit;
    var s := NewSystem(LISTENING, 100);
    var st := NewSession(LISTENING, 100);
    var pcm := Loud() + Quiet() + Loud();
    var st1 := OnAudio(st, pcm, FINE);
    var st2 := OnAudio(st1, [0, 0], FINE);
    NewSessionSpeech(LISTENING, 100);
    ItIsLost(100);
    Lengths();
    AppendIsCalm(st, 4800, pcm);
    AfterTheAppend(st, pcm);
    assert [[0, 0]][1..] == [] && Vad.Concat([[0, 0]]) == [0, 0];
    LostCommitPanics(st, pcm, [[0, 0]], FINE);
    assert Appends(st1, [[0, 0]], FINE) == st2;
    ClientCommitPanics(st2);
    ThreeInputs(s, isLetter, GotAudio(pcm, FINE), GotAudio([0, 0], FINE), GotCommand(CommitAudio, FINE));
  }

  // Three inputs one after the other.
  lemma ThreeInputs(s: System, isLetter: Rune -> bool, a: Input, b: Input, c: Input)
    requires !s.over && !s.closed && !Handled(s.actor, a).cancelled
    requires !TimerInput(a) && !TimerInput(b) && !TimerInput(c)
    ensures MayRun(s, isLetter, [Handle(a), Handle(b), Handle(c)])
    ensures Run(s, isLetter, [Handle(a), Handle(b), Handle(c)]).actor == Handled(Handled(Handled(s.actor, a), b), c)
  {
    hide Handled;
    var steps := [Handle(a), Handle(b), Handle(c)];
    assert steps[1..] == [Handle(b), Handle(c)] && steps[1..][1..] == [Handle(c)];
    var s2 := Take(Take(s, isLetter, steps[0]), isLetter, steps[1]);
    RunOne(s2, isLetter, steps[2]);
  }

  // An input that needs an armed timer.
  predicate TimerInput(input: Input) {
    input.TranscriptTimer? || input.EndOfTurnTimer? || input.DeferTimer?
  }
}
