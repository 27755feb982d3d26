// Whole runs of a session, read as runs of the audio path: dropping idle audio
// cannot be seen, and what is committed is ordered and exact
// (internal/session/session.go:735-856, internal/session/buffer.go:51-124).
module AudioRuns {
  import opened Audio
  import opened Utf8
  import opened Conversations
  import opened Events
  import opened Actor
  import opened Pipelines
  import opened Gateway
  import opened SpeechState
  import opened SpeechEvents
  import opened SpeechRuns
  import Vad
  import InputBuffer
  import IdleTrim
  import Turns

  // ---- spans committed on the path ---------------------------------------------------------------------

  // What the commits of a path report, in order.
  ghost function Spans(p: IdleTrim.Path, inputs: seq<IdleTrim.Input>, prefixMs: nat): seq<InputBuffer.Span>
    requires IdleTrim.PathInv(p, prefixMs) && IdleTrim.Accepted(p, inputs, prefixMs, true)
    decreases |inputs|
  {
    if inputs == [] then []
    else
      IdleTrim.StepKeeps(p, inputs[0], prefixMs, true);
      InputBuffer.CommitIsExact(p.buffer);
      (if inputs[0].CommitAudio? && p.buffer.pcm != [] then
         var c := InputBuffer.CommitResult(p.buffer);
         [InputBuffer.Span(c.startMs, c.endMs, |c.pcm|)]
       else [])
      + Spans(IdleTrim.Step(p, inputs[0], prefixMs, true), inputs[1..], prefixMs)
  }

  lemma HeadAdvances(p: IdleTrim.Path, input: IdleTrim.Input, prefixMs: nat)
    requires IdleTrim.PathInv(p, prefixMs) && IdleTrim.Takes(p, input, true)
    ensures p.buffer.headMs <= IdleTrim.Step(p, input, prefixMs, true).buffer.headMs
    ensures input.CommitAudio? && p.buffer.pcm != [] ==>
              IdleTrim.Step(p, input, prefixMs, true).buffer.headMs == InputBuffer.TotalMs(p.buffer)
  {
    hide Vad.Process;
    hide IdleTrim.MarkAll;
    if input.Feed? {
      IdleTrim.EventFacts(p.detector, input.pcm);
      var (d, evs) := Vad.Process(p.detector, input.pcm);
      IdleTrim.MarkAllKeeps(InputBuffer.Append(p.buffer, input.pcm), evs, prefixMs, p.detector.silenceMs,
                            p.detector.elapsedMs, d.elapsedMs, p.detector.speaking, d.speaking);
    }
  }

  lemma {:induction false} SpansAreOrdered(p: IdleTrim.Path, inputs: seq<IdleTrim.Input>, prefixMs: nat)
    requires IdleTrim.PathInv(p, prefixMs) && IdleTrim.Accepted(p, inputs, prefixMs, true)
    ensures InputBuffer.Ordered(Spans(p, inputs, prefixMs), p.buffer.headMs)
    decreases |inputs|
  {
    hide IdleTrim.Step;
    hide IdleTrim.Takes;
    if inputs != [] {
      var p' := IdleTrim.Step(p, inputs[0], prefixMs, true);
      IdleTrim.StepKeeps(p, inputs[0], prefixMs, true);
      var rest := Spans(p', inputs[1..], prefixMs);
      HeadAdvances(p, inputs[0], prefixMs);
      SpansAreOrdered(p', inputs[1..], prefixMs);
      InputBuffer.CommitIsExact(p.buffer);
      if inputs[0].CommitAudio? && p.buffer.pcm != [] {
        InputBuffer.OrderedWeaken(rest, InputBuffer.CommitEndMs(p.buffer), p'.buffer.headMs);
        assert Spans(p, inputs, prefixMs)[1..] == rest;
      } else {
        InputBuffer.OrderedWeaken(rest, p.buffer.headMs, p'.buffer.headMs);
        assert Spans(p, inputs, prefixMs) == rest;
      }
    }
  }

  // ---- one step of the session ---------------------------------------------------------------------------

  // The appends among the inputs of a path, in order.
  function Feeds(inputs: seq<IdleTrim.Input>): seq<Bytes>
    decreases |inputs|
  {
    if inputs == [] then []
    else (if inputs[0].Feed? then [inputs[0].pcm] else []) + Feeds(inputs[1..])
  }

  // The inputs take p to p', and fed is what they append.
  ghost predicate Leads(p: IdleTrim.Path, p': IdleTrim.Path, inputs: seq<IdleTrim.Input>, fed: seq<Bytes>,
                        prefixMs: nat)
  {
    && IdleTrim.Accepted(p, inputs, prefixMs, true) && IdleTrim.Final(p, inputs, prefixMs, true) == p'
    && Feeds(inputs) == fed
  }

  // The session goes along the path of its turn_detection, hearing fed.
  ghost predicate Follows(st: State, st': State, fed: seq<Bytes>) {
    && st.detector.Some? && st'.detector.Some?
    && st'.cfg.turnDetection == st.cfg.turnDetection
    && exists inputs: seq<IdleTrim.Input> :: Leads(PathOf(st), PathOf(st'), inputs, fed, st.cfg.turnDetection.prefixMs)
  }

  lemma StaysOnPath(st: State, st': State)
    requires st.detector.Some? && st'.cfg.turnDetection == st.cfg.turnDetection
    requires st'.buffer == st.buffer && st'.detector == st.detector
    ensures Follows(st, st', [])
  {
    assert Leads(PathOf(st), PathOf(st'), [], [], st.cfg.turnDetection.prefixMs);
  }

  lemma MuteFollows(st: State, st': State)
    requires st.detector.Some? && Mute(st, st')
    ensures Follows(st, st', [])
  {
    hide Follows;
    StaysOnPath(st, st');
  }

  // One input that feeds no audio.
  lemma OneInput(p: IdleTrim.Path, input: IdleTrim.Input, prefixMs: nat)
    requires IdleTrim.Takes(p, input, true)
    ensures Leads(p, IdleTrim.Step(p, input, prefixMs, true), [input],
                  if input.Feed? then [input.pcm] else [], prefixMs)
  {
    assert [input][1..] == [];
  }

  lemma {:induction false} LeadsOn(p: IdleTrim.Path, q: IdleTrim.Path, r: IdleTrim.Path,
                                   a: seq<IdleTrim.Input>, b: seq<IdleTrim.Input>, prefixMs: nat)
    requires Leads(p, q, a, Feeds(a), prefixMs) && Leads(q, r, b, Feeds(b), prefixMs)
    ensures Leads(p, r, a + b, Feeds(a) + Feeds(b), prefixMs)
    decreases |a|
  {
    hide IdleTrim.Step;
    hide IdleTrim.Takes;
    if a == [] {
      assert a + b == b;
    } else {
      assert (a + b)[1..] == a[1..] + b;
      var first := if a[0].Feed? then [a[0].pcm] else [];
      assert first + Feeds(a[1..]) + Feeds(b) == first + (Feeds(a[1..]) + Feeds(b));
      LeadsOn(IdleTrim.Step(p, a[0], prefixMs, true), q, r, a[1..], b, prefixMs);
    }
  }

  lemma FollowsOn(a: State, b: State, c: State, x: seq<Bytes>, y: seq<Bytes>)
    requires Follows(a, b, x) && Follows(b, c, y)
    ensures Follows(a, c, x + y)
  {
    hide Leads;
    var prefix := a.cfg.turnDetection.prefixMs;
    var xs: seq<IdleTrim.Input> :| Leads(PathOf(a), PathOf(b), xs, x, prefix);
    var ys: seq<IdleTrim.Input> :| Leads(PathOf(b), PathOf(c), ys, y, prefix);
    WhatIsFed(PathOf(a), PathOf(b), xs, x, prefix);
    WhatIsFed(PathOf(b), PathOf(c), ys, y, prefix);
    LeadsOn(PathOf(a), PathOf(b), PathOf(c), xs, ys, prefix);
  }

  lemma QuietlyOn(a: State, b: State, c: State)
    requires Follows(a, b, []) && Follows(b, c, [])
    ensures Follows(a, c, [])
  {
    hide Follows;
    var none: seq<Bytes> := [];
    FollowsOn(a, b, c, none, none);
    assert none + none == none;
  }

  lemma WhatIsFed(p: IdleTrim.Path, p': IdleTrim.Path, inputs: seq<IdleTrim.Input>, fed: seq<Bytes>, prefixMs: nat)
    requires Leads(p, p', inputs, fed, prefixMs)
    ensures fed == Feeds(inputs)
  {
  }

  lemma OutsideFollows(st: State, input: Turns.TurnInput, io: Io)
    requires st.detector.Some? && InputBuffer.BufferInv(st.buffer)
    ensures Follows(st, StepAndApply(st, input, io), [])
  {
    hide StepAndApply;
    hide IdleTrim.Step;
    hide Leads;
    var prefix := st.cfg.turnDetection.prefixMs;
    var st' := StepAndApply(st, input, io);
    OutsideFollowsPath(st, input, io);
    OutsideKeepsConfig(st, input, io);
    CommitNeedsNoPrefix(PathOf(st), prefix);
    if PathOf(st') == PathOf(st) {
      NoInput(PathOf(st), prefix);
    } else {
      OneInput(PathOf(st), IdleTrim.CommitAudio, prefix);
    }
  }

  lemma NoInput(p: IdleTrim.Path, prefixMs: nat)
    ensures Leads(p, p, [], [], prefixMs)
  {
  }

  lemma CommitNeedsNoPrefix(p: IdleTrim.Path, prefixMs: nat)
    ensures IdleTrim.Step(p, IdleTrim.CommitAudio, 0, true) == IdleTrim.Step(p, IdleTrim.CommitAudio, prefixMs, true)
  {
  }

  lemma OutsideKeepsConfig(st: State, input: Turns.TurnInput, io: Io)
    requires st.detector.Some? && InputBuffer.BufferInv(st.buffer)
    ensures StepAndApply(st, input, io).cfg == st.cfg
  {
    hide ApplyDecision;
    hide Turns.Step;
    hide IdleTrim.Step;
    ApplyPath(Stepped(st, input), Turns.Step(st.turn, input).1, io);
  }

  lemma ClearFollows(st: State)
    requires st.detector.Some?
    ensures Follows(st, OnClearAudio(st), [])
  {
    hide Leads;
    OneInput(PathOf(st), IdleTrim.ClearAudio, st.cfg.turnDetection.prefixMs);
    assert PathOf(OnClearAudio(st))
           == IdleTrim.Step(PathOf(st), IdleTrim.ClearAudio, st.cfg.turnDetection.prefixMs, true);
  }

  lemma AudioFollows(st: State, pcm: Bytes, io: Io)
    requires SpeechInv(st) && st.detector.Some? && LeftoverOf(st, pcm) == [] && io.pushOk
    requires !InputBuffer.Overflows(st.buffer, pcm)
    ensures Follows(st, OnAudio(st, pcm, io), [pcm])
  {
    hide SpeechInv;
    hide OnAudio;
    hide IdleTrim.Step;
    hide Leads;
    hide LeftoverOf;
    var prefix := st.cfg.turnDetection.prefixMs;
    var p := PathOf(st);
    AudioFollowsPath(st, pcm, io);
    var fed := IdleTrim.Step(p, IdleTrim.Feed(pcm), prefix, true);
    CommitTakes(fed);
    OneInput(p, IdleTrim.Feed(pcm), prefix);
    OneInput(fed, IdleTrim.CommitAudio, prefix);
    FedOnce(pcm);
    LeadsOn(p, fed, IdleTrim.Step(fed, IdleTrim.CommitAudio, prefix, true), [IdleTrim.Feed(pcm)],
            [IdleTrim.CommitAudio], prefix);
  }

  lemma CommitTakes(p: IdleTrim.Path)
    ensures IdleTrim.Takes(p, IdleTrim.CommitAudio, true)
  {
  }

  lemma FedOnce(pcm: Bytes)
    ensures Feeds([IdleTrim.Feed(pcm)]) == [pcm] && Feeds([IdleTrim.CommitAudio]) == [] && [pcm] + [] == [pcm]
  {
    assert [IdleTrim.Feed(pcm)][1..] == [] && [IdleTrim.CommitAudio][1..] == [];
  }

  // ---- every input -------------------------------------------------------------------------------------------

  // The input does not change turn_detection, and is no append that ends the
  // session or brings a commit before its last event.
  predicate OnPath(st: State, input: Input) {
    match input
    case GotCommand(cmd, _) => cmd.UpdateSession? ==> cmd.patch.turnDetection.None?
    case GotAudio(pcm, io) =>
      io.pushOk && !InputBuffer.Overflows(st.buffer, pcm) && LeftoverOf(st, pcm) == []
    case _ => true
  }

  // The audio an input appends.
  function AppendOf(input: Input): seq<Bytes> {
    if input.GotAudio? then [input.pcm] else []
  }

  lemma UpdateFollows(st: State, p: SessionPatch)
    requires st.detector.Some? && p.turnDetection.None?
    ensures Follows(st, OnUpdateSession(st, p), [])
  {
    hide Follows;
    StaysOnPath(st, OnUpdateSession(st, p));
  }

  lemma TruncateFollows(st: State, ref: ItemRef, contentIndex: int, audioEndMs: int)
    requires st.detector.Some?
    ensures Follows(st, OnTruncateItem(st, ref, contentIndex, audioEndMs), [])
  {
    hide OnTruncateItem;
    hide Follows;
    hide QuietlyLonger;
    TruncateIsMute(st, ref, contentIndex, audioEndMs);
    StaysOnPath(st, OnTruncateItem(st, ref, contentIndex, audioEndMs));
  }

  lemma CommandFollows(st: State, cmd: Command, io: Io)
    requires st.detector.Some? && InputBuffer.BufferInv(st.buffer)
             && (cmd.UpdateSession? ==> cmd.patch.turnDetection.None?)
    ensures Follows(st, OnCommand(st, cmd, io), [])
  {
    hide Follows;
    hide Mute;
    hide StartResponse;
    hide Interrupt;
    hide StepAndApply;
    hide OnUpdateSession;
    hide OnClearAudio;
    hide OnCreateItem;
    hide OnDeleteItem;
    hide OnTruncateItem;
    match cmd
    case UpdateSession(patch) => UpdateFollows(st, patch);
    case CommitAudio => OutsideFollows(st, Turns.ClientCommit, io);
    case ClearAudio => ClearFollows(st);
    case CreateResponse(ov) =>
      SmallStepsAreMute(st, [], ResponseAlreadyActive);
      MuteFollows(st, EmitError(st, ResponseAlreadyActive));
      assert st.(turn := st.turn) == st;
      StartResponseIsMute(st, ov);
      MuteFollows(st, StartResponse(st, ov));
    case CancelResponse(_) =>
      SmallStepsAreMute(st, [], CancelNotActive);
      MuteFollows(st, EmitError(st, CancelNotActive));
      InterruptIsMute(st, ClientCancelled);
      MuteFollows(st, Interrupt(st, ClientCancelled));
    case CreateItem(_, _) => ItemCommandsAreMute(st, cmd, io); MuteFollows(st, OnCommand(st, cmd, io));
    case DeleteItem(_) => ItemCommandsAreMute(st, cmd, io); MuteFollows(st, OnCommand(st, cmd, io));
    case TruncateItem(ref, i, ms) => TruncateFollows(st, ref, i, ms);
    case CloseSession => ItemCommandsAreMute(st, cmd, io); MuteFollows(st, OnCommand(st, cmd, io));
  }

  lemma AsrFollows(st: State, ev: AsrEvent, io: Io)
    requires st.detector.Some? && InputBuffer.BufferInv(st.buffer)
    ensures Follows(st, OnAsr(st, ev, io), [])
  {
    hide Follows;
    hide StepAndApply;
    hide CompletePending;
    match ev
    case AsrPartial(text) => StaysOnPath(st, st.(partial := text));
    case AsrError => StaysOnPath(st, Fatal(st, ProviderError));
    case AsrFinal(text) =>
      var st0 := st.(partial := []);
      StaysOnPath(st, st0);
      var joined := JoinTranscript(st0.transcriptAcc, text);
      var st1 := if HasPending(st0) then CompletePending(st0, joined, text) else st0.(transcriptAcc := joined);
      if HasPending(st0) { CompletePendingIsMute(st0, joined, text); }
      StaysOnPath(st0, st1);
      QuietlyOn(st, st0, st1);
      DetectorStays(st, st1);
      BufferStays(st, st1);
      OutsideFollows(st1, Turns.AsrFinal(text), io);
      QuietlyOn(st, st1, StepAndApply(st1, Turns.AsrFinal(text), io));
    case AsrEndOfTurn =>
      var st1 := if HasPending(st) then CompletePending(st, st.transcriptAcc, []) else st;
      if HasPending(st) { CompletePendingIsMute(st, st.transcriptAcc, []); }
      StaysOnPath(st, st1);
      OutsideFollows(st1, Turns.AsrEndOfTurn, io);
      QuietlyOn(st, st1, StepAndApply(st1, Turns.AsrEndOfTurn, io));
  }

  lemma DetectorStays(st: State, st': State)
    requires exists fed: seq<Bytes> :: Follows(st, st', fed)
    ensures st'.detector.Some?
  {
  }

  lemma BufferStays(st: State, st': State)
    requires st'.buffer == st.buffer && InputBuffer.BufferInv(st.buffer)
    ensures InputBuffer.BufferInv(st'.buffer)
  {
  }

  lemma BufferIsSound(st: State)
    requires SpeechInv(st)
    ensures InputBuffer.BufferInv(st.buffer)
  {
  }

  lemma InputFollows(st: State, input: Input)
    requires SpeechInv(st) && st.detector.Some? && OnPath(st, input)
    ensures Follows(st, Handled(st, input), AppendOf(input))
  {
    hide SpeechInv;
    hide Follows;
    hide Mute;
    hide OnCommand;
    hide OnAudio;
    hide OnAsr;
    hide OnTranscriptTimeout;
    hide OnDeferredTimeout;
    hide StepAndApply;
    BufferIsSound(st);
    match input
    case GotCommand(cmd, io) => CommandFollows(st, cmd, io);
    case GotAudio(pcm, io) => AudioFollows(st, pcm, io);
    case GotAsr(ev, io) => AsrFollows(st, ev, io);
    case TranscriptTimer => TranscriptTimeoutIsMute(st); MuteFollows(st, OnTranscriptTimeout(st));
    case EndOfTurnTimer(io) =>
      StaysOnPath(st, DisarmEndOfTurn(st));
      OutsideFollows(DisarmEndOfTurn(st), Turns.AsrEndOfTurn, io);
      QuietlyOn(st, DisarmEndOfTurn(st), OnEndOfTurnTimer(st, io));
    case DeferTimer => DeferredTimeoutIsMute(st); MuteFollows(st, OnDeferredTimeout(st));
  }

  // ---- whole runs -----------------------------------------------------------------------------------------------

  ghost predicate StaysOn(s: System, isLetter: Rune -> bool, steps: seq<Step>)
    requires MayRun(s, isLetter, steps)
    decreases |steps|
  {
    steps == []
    || ((steps[0].Handle? ==> OnPath(s.actor, steps[0].input))
        && StaysOn(Take(s, isLetter, steps[0]), isLetter, steps[1..]))
  }

  // All audio appended in a run, in order.
  function Appended(steps: seq<Step>): seq<Bytes>
    decreases |steps|
  {
    if steps == [] then [] else StepAppend(steps[0]) + Appended(steps[1..])
  }

  function StepAppend(step: Step): seq<Bytes> {
    if step.Handle? then AppendOf(step.input) else []
  }

  lemma OnPathKeeps(st: State, input: Input)
    requires OnPath(st, input)
    ensures Keeps(st, input)
  {
    hide LeftoverOf;
  }

  lemma StepFollows(s: System, isLetter: Rune -> bool, step: Step)
    requires SpeechInv(s.actor) && s.actor.detector.Some? && MayStep(s, step)
    requires step.Handle? ==> OnPath(s.actor, step.input)
    ensures Follows(s.actor, Take(s, isLetter, step).actor, StepAppend(step))
            && SpeechInv(Take(s, isLetter, step).actor)
  {
    hide SpeechInv;
    hide Follows;
    hide Mute;
    hide Handled;
    hide OnPipeEvent;
    hide Act;
    StepSpeech(s, isLetter, step);
    if step.Handle? { OnPathKeeps(s.actor, step.input); }
    match step
    case Handle(input) => InputFollows(s.actor, input);
    case Deliver => PipeEventIsMute(s.actor, s.queue[0]); MuteFollows(s.actor, OnPipeEvent(s.actor, s.queue[0]));
    case Stage(i, a) => StaysOnPath(s.actor, s.actor);
    case CloseOutside => StaysOnPath(s.actor, s.actor);
  }

  lemma {:induction false} RunFollows(s: System, isLetter: Rune -> bool, steps: seq<Step>)
    requires SpeechInv(s.actor) && s.actor.detector.Some? && MayRun(s, isLetter, steps) && StaysOn(s, isLetter, steps)
    ensures Follows(s.actor, Run(s, isLetter, steps).actor, Appended(steps))
    decreases |steps|
  {
    hide SpeechInv;
    hide Follows;
    hide Take;
    hide MayStep;
    hide OnPath;
    if steps == [] {
      StaysOnPath(s.actor, s.actor);
    } else {
      var s1 := Take(s, isLetter, steps[0]);
      StepFollows(s, isLetter, steps[0]);
      DetectorStays(s.actor, s1.actor);
      RunFollows(s1, isLetter, steps[1..]);
      FollowsOn(s.actor, s1.actor, Run(s1, isLetter, steps[1..]).actor, StepAppend(steps[0]), Appended(steps[1..]));
    }
  }

  // Nothing has been heard since the last commit, clear or start of the session.
  predicate NothingHeld(st: State) {
    st.detector.Some? && st.buffer.pcm == [] && st.buffer.headMs == st.buffer.baseMs
  }

  lemma NothingHeldIsPath(st: State)
    requires SpeechInv(st) && NothingHeld(st)
    ensures IdleTrim.PathInv(PathOf(st), st.cfg.turnDetection.prefixMs) && IdleTrim.Agree(PathOf(st), PathOf(st))
  {
    hide StopsMatch;
    hide OpenSpeech;
  }

  // Over any stretch of a run that begins with nothing held (at the start, after a
  // commit, after a clear), as long as turn_detection does not change and no append
  // brings a commit before its last event: the session's buffer and detector are
  // where appending exactly the audio of the stretch, with some commits and clears
  // between, takes them; a buffer that never trims would have shown the same marks
  // and marked commits all the way, and agrees with it in the end; the spans
  // committed are ordered, disjoint, and 48 bytes for every millisecond; and what is
  // held while nothing is marked stays bounded.
  lemma IdleAudioIsNeverMissed(cfg: Config, bufferMaxMs: nat, isLetter: Rune -> bool,
                               before: seq<Step>, steps: seq<Step>)
    requires MayRun(NewSystem(cfg, bufferMaxMs), isLetter, before)
    requires NothingLost(NewSystem(cfg, bufferMaxMs), isLetter, before)
    requires var s := Run(NewSystem(cfg, bufferMaxMs), isLetter, before);
             NothingHeld(s.actor) && MayRun(s, isLetter, steps) && StaysOn(s, isLetter, steps)
    ensures var s := Run(NewSystem(cfg, bufferMaxMs), isLetter, before);
            var last := Run(s, isLetter, steps).actor;
            last.detector.Some? && exists inputs: seq<IdleTrim.Input> ::
              && Feeds(inputs) == Appended(steps)
              && Unseen(PathOf(s.actor), PathOf(last), inputs, s.actor.cfg.turnDetection.prefixMs)
  {
    hide Leads;
    hide SpeechInv;
    hide Run;
    hide MayRun;
    hide StaysOn;
    hide Unseen;
    NewSessionSpeech(cfg, bufferMaxMs);
    RunSpeech(NewSystem(cfg, bufferMaxMs), isLetter, before);
    var s := Run(NewSystem(cfg, bufferMaxMs), isLetter, before);
    StretchIsUnseen(s, isLetter, steps);
  }

  lemma StretchIsUnseen(s: System, isLetter: Rune -> bool, steps: seq<Step>)
    requires SpeechInv(s.actor) && NothingHeld(s.actor) && MayRun(s, isLetter, steps) && StaysOn(s, isLetter, steps)
    ensures var last := Run(s, isLetter, steps).actor;
            last.detector.Some? && exists inputs: seq<IdleTrim.Input> ::
              && Feeds(inputs) == Appended(steps)
              && Unseen(PathOf(s.actor), PathOf(last), inputs, s.actor.cfg.turnDetection.prefixMs)
  {
    hide Leads;
    hide SpeechInv;
    hide Run;
    hide Unseen;
    var prefix := s.actor.cfg.turnDetection.prefixMs;
    RunFollows(s, isLetter, steps);
    var start, last := PathOf(s.actor), PathOf(Run(s, isLetter, steps).actor);
    var inputs: seq<IdleTrim.Input> :| Leads(start, last, inputs, Appended(steps), prefix);
    WhatIsFed(start, last, inputs, Appended(steps), prefix);
    NothingHeldIsPath(s.actor);
    PathsAgree(start, last, inputs, prefix);
  }

  ghost predicate Unseen(start: IdleTrim.Path, last: IdleTrim.Path, inputs: seq<IdleTrim.Input>, prefixMs: nat) {
    && IdleTrim.PathInv(start, prefixMs)
    && IdleTrim.Accepted(start, inputs, prefixMs, true) && IdleTrim.Final(start, inputs, prefixMs, true) == last
    && IdleTrim.Accepted(start, inputs, prefixMs, false)
    && IdleTrim.Run(start, inputs, prefixMs, true) == IdleTrim.Run(start, inputs, prefixMs, false)
    && IdleTrim.Agree(last, IdleTrim.Final(start, inputs, prefixMs, false))
    && InputBuffer.Ordered(Spans(start, inputs, prefixMs), start.buffer.headMs)
    && IdleTrim.IdleIsBounded(last, prefixMs)
  }

  lemma PathsAgree(start: IdleTrim.Path, last: IdleTrim.Path, inputs: seq<IdleTrim.Input>, prefixMs: nat)
    requires IdleTrim.PathInv(start, prefixMs) && IdleTrim.Agree(start, start)
             && Leads(start, last, inputs, Feeds(inputs), prefixMs)
    requires start.buffer.pcm == []
    ensures Unseen(start, last, inputs, prefixMs)
  {
    IdleTrim.TrimmingIsUnobservable(start, start, inputs, prefixMs);
    SpansAreOrdered(start, inputs, prefixMs);
    IdleTrim.IdleAudioIsBounded(start, inputs, prefixMs);
  }
}
