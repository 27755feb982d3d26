// How a session answers speech: what a turn's end, a speech start and a commit make
// of the response and the conversation (internal/session/session.go:735-870).
module Answers {
  import opened Audio
  import opened Utf8
  import opened Conversations
  import opened Events
  import opened Grammar
  import opened Actor
  import opened ActorInvariants
  import opened Gateway
  import opened SpeechState
  import opened SpeechEvents
  import opened SpeechRuns
  import opened SessionRuns
  import opened Outcomes
  import IdleTrim
  import InputBuffer
  import Turns
  import Vad

  // Event e has been emitted between st and st'.
  ghost predicate Told(st: State, st': State, e: Event) {
    st.trace <= st'.trace && e in st'.trace[|st.trace|..]
  }

  lemma ToldSoon(st: State, st': State, es: seq<Event>, e: Event)
    requires st.trace + es <= st'.trace && e in es
    ensures Told(st, st', e)
  {
    var i :| 0 <= i < |es| && es[i] == e;
    assert st'.trace[|st.trace|..][i] == e;
  }

  lemma ToldLater(a: State, b: State, c: State, e: Event)
    requires a.trace <= b.trace <= c.trace
    ensures Told(a, b, e) || Told(b, c, e) ==> Told(a, c, e)
  {
    var n := |b.trace| - |a.trace|;
    assert b.trace[|a.trace|..] == c.trace[|a.trace|..][..n];
    assert c.trace[|b.trace|..] == c.trace[|a.trace|..][n..];
  }

  // ---- commits ---------------------------------------------------------------------------------------------

  // The ref under which the next commit puts its item.
  function NextItem(st: State): ItemRef {
    if st.speechItem != 0 then st.speechItem else st.conv.next + 1
  }

  // Audio has been committed: it is announced and put at the end of the conversation
  // as a user item, which holds what was heard before the commit, has a millisecond
  // for every 48 bytes taken, and now waits for its transcript.
  ghost predicate CommitTold(st: State, st': State, okToo: bool) {
    var ref := NextItem(st);
    var previous := if st.conv.items == [] then 0 else st.conv.items[|st.conv.items| - 1];
    var taken := InputBuffer.CommitResult(st.buffer);
    && taken.Committed?
    && ref in st'.conv.index
    && (var v := st'.conv.index[ref].view;
        && v == ItemView(ref, UserRole, AudioContent, InProgress, st.transcriptAcc, v.audioMs, false, [], [])
        && 48 * v.audioMs == |taken.pcm|
        && st'.conv.items == st.conv.items + [ref]
        && st'.pendingItem == ref && st'.speechItem == 0 && st'.buffer.pcm == []
        && st'.active == st.active && st'.nextResp == st.nextResp
        && (var told := [AudioBufferCommitted(ref, previous), ItemAdded(v, previous)];
            && st'.trace == st.trace + told + (if okToo then [] else [ErrorEvent(ProviderError, true)])
            && st'.cancelled == (st.cancelled || !okToo)))
  }

  // The item a commit makes of the held audio.
  function Taken(st: State): Item {
    SpokenItem(st.speechItem, st.transcriptAcc,
               InputBuffer.CommitEndMs(st.buffer) - InputBuffer.CommitStartMs(st.buffer))
  }

  lemma CommitShape(st: State, io: Io)
    requires st.buffer.pcm != [] && InputBuffer.Sliceable(st.buffer)
    ensures var c := Commit(st, io);
            var added := AppendItem(st.conv, Taken(st));
            var told := [AudioBufferCommitted(added.item.view.ref, added.previous),
                         ItemAdded(added.item.view, added.previous)];
            && c.ok == io.finalizeOk
            && c.st.conv == added.conv && c.st.pendingItem == added.item.view.ref && c.st.speechItem == 0
            && c.st.buffer.pcm == [] && c.st.active == st.active && c.st.nextResp == st.nextResp
            && c.st.cancelled == (st.cancelled || !c.ok)
            && c.st.trace == st.trace + told + (if c.ok then [] else [ErrorEvent(ProviderError, true)])
  {
    hide AppendItem;
    hide Vad.Reset;
    hide InputBuffer.Sliceable;
    hide InputBuffer.CommitStartMs;
    hide InputBuffer.CommitEndMs;
  }

  lemma CommitTells(st: State, io: Io)
    requires ActorInv(st) && InputBuffer.BufferInv(st.buffer)
    ensures var c := Commit(st, io);
            && (st.buffer.pcm == [] ==> !c.ok && c.st == Emit(st, ErrorEvent(BufferEmpty, false)))
            && (st.buffer.pcm != [] ==> c.ok == io.finalizeOk && CommitTold(st, c.st, c.ok))
  {
    hide ActorInv;
    hide Insert;
    hide Commit;
    InputBuffer.CommitIsExact(st.buffer);
    if st.buffer.pcm == [] {
      NothingToCommit(st, io);
    } else {
      CommitShape(st, io);
      assert ItemsInv(st) by { ItemsAgree(st); }
      AppendKeeps(st, Taken(st));
      ListAgrees(st);
      InsertPlaces(st.conv, Taken(st), AtEnd);
    }
  }

  lemma NothingToCommit(st: State, io: Io)
    requires st.buffer.pcm == []
    ensures Commit(st, io) == Committed(Emit(st, ErrorEvent(BufferEmpty, false)), false)
  {
  }

  lemma ItemsAgree(st: State)
    requires ActorInv(st)
    ensures ItemsInv(st)
  {
    hide ItemsInv;
  }

  lemma ListAgrees(st: State)
    requires ItemsInv(st)
    ensures ConvInv(st.conv)
  {
  }

  // ---- creating a response -----------------------------------------------------------------------------------

  // A response has been created: announced under the next ref, and either waiting for
  // the transcript of the item just committed or started with the whole conversation.
  ghost predicate CreationTold(st: State, st': State, textOnly: bool) {
    && st'.trace == st.trace + [Event.ResponseCreated(st.nextResp + 1, textOnly)]
    && st'.nextResp == st.nextResp + 1 && st'.conv == st.conv && st'.turn.responseActive
    && st'.active.Some? && st'.active.value.ref == st.nextResp + 1 && st'.active.value.textOnly == textOnly
    && st'.active.value.awaiting == st'.asrWait
    && (if st.pendingItem != 0
        then st'.asrWait && st'.active.value.dependsOn == st.pendingItem && st'.launches == st.launches
        else !st'.asrWait && |st'.launches| == |st.launches| + 1 && st.launches <= st'.launches
             && var l := st'.launches[|st.launches|];
                l.resp == st.nextResp + 1 && l.textOnly == textOnly && ExpandAll(l.messages) == Pieces(Views(st.conv)))
  }

  lemma CreationTells(st: State, ov: Overrides)
    requires ActorInv(st) && st.active.None?
    ensures var st' := StartResponse(st, ov);
            var locked := ov.voice.Some? && ov.voice.value != st.cfg.voice && st.audioEmitted;
            && (locked ==> st' == Emit(st, ErrorEvent(VoiceLocked, false)))
            && (!locked && !ov.valid ==> st' == Emit(st, ErrorEvent(InvalidOverrides, false)))
            && (!locked && ov.valid ==>
                  CreationTold(st, st', if ov.textOnly.Some? then ov.textOnly.value else st.cfg.textOnly))
  {
    hide ActorInv;
    hide StartPipeline;
    hide Created;
    hide Pieces;
    hide ExpandAll;
    hide Views;
    hide ItemsInv;
    var r := NewResponse(st.nextResp + 1, Or(ov.textOnly, st.cfg.textOnly));
    var st1 := Created(st, r);
    CreatedTells(st, r);
    NoWait(st);
    ItemsAgree(st);
    CreatedItems(st, r);
    PendingIsUndone(st1);
    ModelSeesTheConversation(st1);
    StartTells(st1);
  }

  lemma CreatedTells(st: State, r: Response)
    ensures var st' := Created(st, r);
            && st'.trace == st.trace + [Event.ResponseCreated(r.ref, r.textOnly)]
            && st'.nextResp == r.ref && st'.turn.responseActive && st'.asrWait == st.asrWait
  {
    hide Turns.EndsSentence;
  }

  lemma PendingIsUndone(st: State)
    requires ItemsInv(st)
    ensures HasPending(st) <==> st.pendingItem != 0
    ensures HasPending(st) ==> !st.conv.index[st.pendingItem].view.transcriptDone
  {
  }

  lemma StartTells(st: State)
    requires st.active.Some?
    ensures var st' := StartPipeline(st);
            && st'.trace == st.trace && st'.nextResp == st.nextResp && st'.conv == st.conv && st'.turn == st.turn
            && st'.asrWait == st.asrWait && st'.active.Some? && !st'.active.value.awaiting
            && st'.active.value.ref == st.active.value.ref && st'.active.value.textOnly == st.active.value.textOnly
            && st'.launches == st.launches + [st'.launches[|st.launches|]]
            && st'.launches[|st.launches|].textOnly == st.active.value.textOnly
  {
    hide MessagesOf;
  }

  lemma NoWait(st: State)
    requires ActorInv(st) && st.active.None?
    ensures !st.asrWait
  {
    hide ResponseInv;
  }

  // ---- speech starts -------------------------------------------------------------------------------------------

  // A speech start has been handled: announced with where it is marked, under the
  // item reserved for it; the response it may interrupt is cancelled for it, and a
  // response that was to follow an earlier turn is given up.
  ghost predicate StartTold(st: State, st': State, offsetMs: nat) {
    var ref := NextItem(st);
    var told := st.trace + [SpeechStarted(StartMs(st, offsetMs), ref)];
    && told <= st'.trace
    && st'.speechItem == ref && st'.buffer == st.buffer.(segStartMs := StartMs(st, offsetMs), segEndMs := -1)
    && st'.eot.None? && st'.turn.speaking
    && (if st.turn.interruptResponse && st.active.Some?
        then exists st1 :: Announced(st, st1, told) && DoneTold(st1, st', ResponseCancelled, TurnDetected)
        else st'.active == st.active && st'.trace == told)
    && st'.deferItem == (if st.turn.interruptResponse then 0 else st.deferItem)
    && st'.cfg == st.cfg && st'.nextResp == st.nextResp
    && st'.turn.mode == st.turn.mode && st'.turn.createResponse == st.turn.createResponse
    && st'.turn.interruptResponse == st.turn.interruptResponse
  }

  // st with the speech announced; the response is as it was.
  ghost predicate Announced(st: State, st1: State, told: seq<Event>) {
    st1.trace == told && st1.active == st.active && st1.conv.index == st.conv.index && st1.conv.items == st.conv.items
  }

  lemma ReserveTells(st: State)
    ensures var st1 := ReserveSpeechItem(st);
            && st1 == st.(conv := st1.conv, speechItem := NextItem(st))
            && st1.conv.items == st.conv.items && st1.conv.index == st.conv.index
  {
  }

  lemma MarkTells(st: State, offsetMs: nat)
    requires !st.turn.mode.Manual?
    ensures MarkStart(st, offsetMs)
            == st.(buffer := InputBuffer.MarkSpeechStart(st.buffer, offsetMs, st.cfg.turnDetection.prefixMs),
                   eot := None, turnNo := st.turnNo + 1,
                   turn := st.turn.(speaking := true, pendingEot := false, finalPending := false))
  {
  }

  // Where a start at offsetMs is marked: rolled back by the prefix, within what is held.
  function StartMs(st: State, offsetMs: nat): int {
    var at := st.buffer.baseMs + offsetMs - st.cfg.turnDetection.prefixMs;
    if at < st.buffer.headMs then st.buffer.headMs else at
  }

  lemma StartedTells(st: State, offsetMs: nat)
    requires !st.turn.mode.Manual?
    ensures var st' := Started(st, offsetMs);
            && Announced(st, st', st.trace + [SpeechStarted(StartMs(st, offsetMs), NextItem(st))])
            && st'.speechItem == NextItem(st) && st'.eot.None?
            && st'.buffer == st.buffer.(segStartMs := StartMs(st, offsetMs), segEndMs := -1)
            && st'.turn == st.turn.(speaking := true, pendingEot := false, finalPending := false)
            && st'.deferItem == st.deferItem && st'.cfg == st.cfg && st'.nextResp == st.nextResp
  {
    hide ReserveSpeechItem;
    hide MarkStart;
    ReserveTells(st);
    MarkTells(ReserveSpeechItem(st), offsetMs);
  }

  lemma StartedKeeps(st: State, offsetMs: nat)
    requires ActorInv(st) && !st.turn.mode.Manual?
    ensures Good(st, Started(st, offsetMs))
  {
    hide ActorInv;
    hide Evolves;
    hide Turns.Step;
    hide MarkStart;
    ReserveKeeps(st);
    var st1 := ReserveSpeechItem(st);
    MarkStartKeeps(st1, offsetMs);
    GoodTransitive(st, st1, MarkStart(st1, offsetMs));
    var e := SpeechStarted(InputBuffer.SpeechStartMs(st1.buffer, offsetMs, st1.cfg.turnDetection.prefixMs),
                           st1.speechItem);
    EmitOneKeeps(MarkStart(st1, offsetMs), e);
    GoodTransitive(st, MarkStart(st1, offsetMs), Emit(MarkStart(st1, offsetMs), e));
  }

  // Giving up a response leaves speech and settings alone.
  lemma InterruptAside(st: State)
    requires st.active.Some?
    ensures var st' := Interrupt(st, TurnDetected);
            && st'.speechItem == st.speechItem && st'.buffer == st.buffer && st'.eot == st.eot
            && st'.deferItem == st.deferItem && st'.cfg == st.cfg && st'.nextResp == st.nextResp
            && st'.turn == st.turn.(responseActive := st'.turn.responseActive)
  {
    hide CloseEvents;
    hide Turns.EndsSentence;
  }

  lemma ActiveIsKnown(st: State)
    requires ActorInv(st)
    ensures Turns.TurnInv(st.turn) && (st.turn.responseActive <==> st.active.Some?)
  {
    hide ResponseInv;
  }

  lemma SpeechStartTells(st: State, offsetMs: nat, io: Io)
    requires ActorInv(st) && !st.turn.mode.Manual?
    ensures StartTold(st, OnSpeechStart(st, offsetMs, io), offsetMs)
  {
    hide ActorInv;
    hide FinishResponse;
    hide Started;
    hide OnSpeechStart;
    hide DoneTold;
    hide Turns.Step;
    hide NextItem;
    hide StartMs;
    StartUnfolds(st, offsetMs, io);
    StartedTells(st, offsetMs);
    StartedKeeps(st, offsetMs);
    ActiveIsKnown(st);
    Turns.TurnEndsAnswer(st.turn, Turns.VadSpeechStart);
    var st3 := Started(st, offsetMs);
    GoodIsSound(st, st3);
    if st.turn.interruptResponse && st.active.Some? {
      var st4 := Interrupt(st3, TurnDetected);
      FinishTells(st3, ResponseCancelled, TurnDetected);
      InterruptAside(st3);
      DropTells(st3, st4);
    }
  }

  lemma DropTells(st: State, st': State)
    requires st.active.Some? && DoneTold(st, st', ResponseCancelled, TurnDetected)
    ensures DoneTold(st, DropDeferred(st'), ResponseCancelled, TurnDetected)
  {
  }

  // ---- decisions ------------------------------------------------------------------------------------------------

  // What a decision asks for.
  datatype Ask = Ask(commit: bool, trigger: bool, defer: bool, wait: bool)

  // A decision has been carried out, with c the state before a response is created: a
  // commit takes the audio there is, and a deferred response waits for the very item
  // committed; the timer is armed for the turn; and a response is created only when
  // none is active.
  ghost predicate Carried(st: State, c: State, st': State, ask: Ask, io: Io) {
    && Prepared(st, c, ask, io)
    && c.deferItem == (if ask.commit && ask.defer && st.buffer.pcm != [] && io.finalizeOk then NextItem(st)
                       else st.deferItem)
    && c.eot == (if ask.wait then Some(st.turnNo) else st.eot)
    && c.active == st.active && c.nextResp == st.nextResp && c.cfg == st.cfg && c.turn == st.turn
    && (if ask.trigger && st.active.None? then CreationTold(c, st', st.cfg.textOnly) else st' == c)
  }

  ghost predicate Prepared(st: State, c: State, ask: Ask, io: Io) {
    if !ask.commit then c.trace == st.trace && c.conv == st.conv && c.pendingItem == st.pendingItem
    else if st.buffer.pcm == [] then
      c.trace == st.trace + [ErrorEvent(BufferEmpty, false)] && c.conv == st.conv && c.pendingItem == st.pendingItem
    else CommitTold(st, c, io.finalizeOk)
  }

  function AskOf(d: Turns.Decision): Ask {
    Ask(d.commit, d.trigger, d.deferTrigger, d.armEndOfTurn || d.armFinalWait)
  }

  // The state in which a decision's response would be created.
  function Before(st: State, d: Turns.Decision, io: Io): State {
    var st1 := Armed(st, d);
    if d.commit then
      var c := Commit(st1, io);
      if c.ok && d.deferTrigger then DeferTrigger(c.st) else c.st
    else st1
  }

  // The audio aside, a commit touches the conversation, the trace and what is pending.
  ghost predicate Leaves(st: State, st': State) {
    && st'.deferItem == st.deferItem && st'.eot == st.eot && st'.active == st.active
    && st'.nextResp == st.nextResp && st'.cfg == st.cfg && st'.turn == st.turn
  }

  lemma CommitLeaves(st: State, io: Io)
    ensures Leaves(st, Commit(st, io).st)
  {
    if st.buffer.pcm != [] && InputBuffer.Sliceable(st.buffer) {
      hide Commit;
      TakingLeaves(st, io);
    }
  }

  lemma TakingLeaves(st: State, io: Io)
    requires st.buffer.pcm != [] && InputBuffer.Sliceable(st.buffer)
    ensures Leaves(st, Commit(st, io).st)
  {
    hide AppendItem;
    hide Vad.Reset;
    hide InputBuffer.Clear;
    hide InputBuffer.Sliceable;
    hide InputBuffer.CommitStartMs;
    hide InputBuffer.CommitEndMs;
  }

  lemma BeforeKeeps(st: State, d: Turns.Decision, io: Io)
    requires ActorInv(Armed(st, d))
    ensures ActorInv(Before(st, d, io))
  {
    hide ActorInv;
    hide Commit;
    hide Evolves;
    var st1 := Armed(st, d);
    CommitKeeps(st1, io);
    var c := Commit(st1, io).st;
    if d.commit { DeferKeeps(c); }
  }

  lemma ArmedTells(st: State, d: Turns.Decision, c: State, ok: bool)
    requires CommitTold(Armed(st, d), c, ok)
    ensures CommitTold(st, c, ok) && CommitTold(st, DeferTrigger(c), ok)
    ensures DeferTrigger(c).deferItem == NextItem(st)
  {
    hide InputBuffer.CommitResult;
  }

  lemma BeforeTells(st: State, d: Turns.Decision, io: Io)
    requires ActorInv(Armed(st, d)) && InputBuffer.BufferInv(st.buffer)
    ensures var c := Before(st, d, io);
            && Prepared(st, c, AskOf(d), io)
            && (st.buffer.pcm != [] && d.commit && d.deferTrigger && io.finalizeOk ==> c.deferItem == NextItem(st))
  {
    hide ActorInv;
    hide Commit;
    hide CommitTold;
    hide InputBuffer.BufferInv;
    hide NextItem;
    if d.commit {
      hide DeferTrigger;
      hide Armed;
      ArmedAside(st, d);
      CommitTells(Armed(st, d), io);
      var c := Commit(Armed(st, d), io);
      if st.buffer.pcm != [] { ArmedTells(st, d, c.st, c.ok); }
    }
  }

  lemma ArmedAside(st: State, d: Turns.Decision)
    ensures var st1 := Armed(st, d);
            && st1.buffer == st.buffer && st1.trace == st.trace && st1.conv == st.conv
               && st1.pendingItem == st.pendingItem
  {
  }

  lemma BeforeLeaves(st: State, d: Turns.Decision, io: Io)
    ensures var c := Before(st, d, io);
            && c.eot == (if d.armEndOfTurn || d.armFinalWait then Some(st.turnNo) else st.eot)
            && c.active == st.active && c.nextResp == st.nextResp && c.cfg == st.cfg && c.turn == st.turn
            && (!(d.commit && d.deferTrigger && st.buffer.pcm != [] && io.finalizeOk) ==> c.deferItem == st.deferItem)
  {
    hide Commit;
    CommitLeaves(Armed(st, d), io);
    CommitOk(Armed(st, d), io);
  }

  lemma CommitOk(st: State, io: Io)
    ensures Commit(st, io).ok ==> io.finalizeOk && st.buffer.pcm != []
  {
    hide AppendItem;
    hide InputBuffer.Sliceable;
  }

  lemma DecisionTells(st: State, d: Turns.Decision, io: Io)
    requires ActorInv(Armed(st, d)) && InputBuffer.BufferInv(st.buffer)
    ensures Carried(st, Before(st, d, io), ApplyDecision(st, d, io), AskOf(d), io)
  {
    hide ActorInv;
    hide StartResponse;
    hide Commit;
    hide Prepared;
    hide CreationTold;
    hide InputBuffer.BufferInv;
    hide NextItem;
    BeforeTells(st, d, io);
    BeforeLeaves(st, d, io);
    BeforeKeeps(st, d, io);
    if st.active.None? { CreationTells(Before(st, d, io), NO_OVERRIDES); }
  }

  // What input asks for when the turn stands at t: its end commits, and is answered at
  // once in server_vad, on the transcript in semantic_vad, if at all.
  function AskFor(t: Turns.Turn, input: Turns.TurnInput): Ask {
    var ends := Turns.EndsNow(t, input);
    Ask(ends || input.ClientCommit?,
        ends && t.mode.ServerVad? && t.createResponse,
        ends && t.mode.SemanticVad? && t.createResponse,
        t.mode.SemanticVad? && !ends && ((input.VadSpeechEnd? && t.speaking) || (input.AsrFinal? && t.pendingEot)))
  }

  lemma StepAsks(t: Turns.Turn, input: Turns.TurnInput)
    requires Turns.TurnInv(t) && !input.ClientCreateResponse?
    ensures AskOf(Turns.Step(t, input).1) == AskFor(t, input)
  {
    hide Turns.Step;
    hide Turns.EndsSentence;
    Turns.TurnEndsAnswer(t, input);
    Turns.TurnsWait(t, input);
  }

  // ---- turns that end otherwise ----------------------------------------------------------------------------------

  // A final, the end of the turn or a client's commit is carried out as asked for.
  lemma OutsideTells(st: State, input: Turns.TurnInput, io: Io)
    requires ActorInv(st) && InputBuffer.BufferInv(st.buffer) && ActorInvariants.Outside(input)
    ensures exists c :: Carried(Stepped(st, input), c, StepAndApply(st, input, io), AskFor(st.turn, input), io)
  {
    hide ActorInv;
    hide Good;
    hide Turns.Step;
    hide ApplyDecision;
    hide Carried;
    hide AskFor;
    hide AskOf;
    hide Stepped;
    hide Armed;
    hide InputBuffer.BufferInv;
    ActiveIsKnown(st);
    StepAsks(st.turn, input);
    ActorInvariants.StepKeeps(st, input);
    SteppedAside(st, input);
    var d := Turns.Step(st.turn, input).1;
    GoodIsSound(st, Armed(Stepped(st, input), d));
    DecisionTells(Stepped(st, input), d, io);
    var c := Before(Stepped(st, input), d, io);
    assert Carried(Stepped(st, input), c, StepAndApply(st, input, io), AskFor(st.turn, input), io);
  }

  lemma SteppedAside(st: State, input: Turns.TurnInput)
    ensures Stepped(st, input).buffer == st.buffer
  {
    hide Turns.Step;
  }

  // So is the end of a turn that its timer brings.
  lemma TimerTells(st: State, io: Io)
    requires ActorInv(st) && InputBuffer.BufferInv(st.buffer)
    ensures var spent := st.(eot := None);
            exists c :: Carried(Stepped(spent, Turns.AsrEndOfTurn), c, OnEndOfTurnTimer(st, io),
                                AskFor(st.turn, Turns.AsrEndOfTurn), io)
  {
    hide ActorInv;
    hide Good;
    hide Turns.Step;
    hide ApplyDecision;
    hide Carried;
    hide AskFor;
    hide AskOf;
    hide Stepped;
    hide Armed;
    hide InputBuffer.BufferInv;
    ActiveIsKnown(st);
    StepAsks(st.turn, Turns.AsrEndOfTurn);
    EndOfTurnArmed(st);
    var st1 := st.(eot := None);
    SteppedAside(st1, Turns.AsrEndOfTurn);
    var d := Turns.Step(st.turn, Turns.AsrEndOfTurn).1;
    GoodIsSound(st, Armed(Stepped(st1, Turns.AsrEndOfTurn), d));
    DecisionTells(Stepped(st1, Turns.AsrEndOfTurn), d, io);
    var c := Before(Stepped(st1, Turns.AsrEndOfTurn), d, io);
    assert Carried(Stepped(st1, Turns.AsrEndOfTurn), c, OnEndOfTurnTimer(st, io), AskFor(st.turn, Turns.AsrEndOfTurn),
                   io);
  }

  // After any run in which nothing is lost, when the timer ends a semantic_vad turn with
  // audio in it, the audio is committed and, if turns are to be answered, a response is
  // deferred to that item's transcript; none is created before.
  lemma SemanticTurnIsDeferred(cfg: Config, bufferMaxMs: nat, isLetter: Rune -> bool, steps: seq<Step>, io: Io)
    requires MayRun(NewSystem(cfg, bufferMaxMs), isLetter, steps)
    requires NothingLost(NewSystem(cfg, bufferMaxMs), isLetter, steps)
    ensures var st := Run(NewSystem(cfg, bufferMaxMs), isLetter, steps).actor;
            var st' := OnEndOfTurnTimer(st, io);
            st.turn.pendingEot && st.buffer.pcm != [] && io.finalizeOk ==>
              && CommitTold(st, st', true) && st'.active == st.active && st'.nextResp == st.nextResp
              && (st.cfg.turnDetection.createResponse ==> st'.deferItem == st'.pendingItem == NextItem(st))
              && (!st.cfg.turnDetection.createResponse ==> st'.deferItem == st.deferItem)
  {
    hide SpeechInv;
    hide SysInv;
    hide ActorInv;
    hide OnEndOfTurnTimer;
    NewSystemInv(cfg, bufferMaxMs);
    RunKeeps(NewSystem(cfg, bufferMaxMs), isLetter, steps);
    SpeechAgreesEverywhere(cfg, bufferMaxMs, isLetter, steps);
    ActorHolds(Run(NewSystem(cfg, bufferMaxMs), isLetter, steps));
    var st := Run(NewSystem(cfg, bufferMaxMs), isLetter, steps).actor;
    TimerCommits(st, io);
  }

  lemma TimerCommits(st: State, io: Io)
    requires ActorInv(st) && InputBuffer.BufferInv(st.buffer) && FollowsSettings(st)
    ensures var st' := OnEndOfTurnTimer(st, io);
            st.turn.pendingEot && st.buffer.pcm != [] && io.finalizeOk ==>
              && CommitTold(st, st', true) && st'.active == st.active && st'.nextResp == st.nextResp
              && (st.cfg.turnDetection.createResponse ==> st'.deferItem == st'.pendingItem == NextItem(st))
              && (!st.cfg.turnDetection.createResponse ==> st'.deferItem == st.deferItem)
  {
    hide ActorInv;
    hide OnEndOfTurnTimer;
    hide CreationTold;
    hide CommitTold;
    ActiveIsKnown(st);
    TimerTells(st, io);
    if st.turn.pendingEot && st.buffer.pcm != [] && io.finalizeOk {
      var spent := Stepped(st.(eot := None), Turns.AsrEndOfTurn);
      SteppedLeaves(st);
      SpentCommit(st, spent, OnEndOfTurnTimer(st, io));
    }
  }

  lemma SteppedLeaves(st: State)
    ensures var spent := Stepped(st.(eot := None), Turns.AsrEndOfTurn);
            && spent.buffer == st.buffer && spent.conv == st.conv && spent.trace == st.trace
            && spent.speechItem == st.speechItem && spent.transcriptAcc == st.transcriptAcc
            && spent.active == st.active && spent.nextResp == st.nextResp && spent.cancelled == st.cancelled
            && spent.deferItem == st.deferItem
  {
    hide Turns.Step;
  }

  // What a commit tells does not depend on the turn that ended.
  lemma SpentCommit(st: State, spent: State, st': State)
    requires spent.buffer == st.buffer && spent.conv == st.conv && spent.trace == st.trace
    requires spent.speechItem == st.speechItem && spent.transcriptAcc == st.transcriptAcc
    requires spent.active == st.active && spent.nextResp == st.nextResp && spent.cancelled == st.cancelled
    ensures CommitTold(spent, st', true) ==> CommitTold(st, st', true) && st'.pendingItem == NextItem(st)
    ensures NextItem(spent) == NextItem(st)
  {
  }

  // ---- speech ends ------------------------------------------------------------------------------------------------

  // The end of a speech is announced with where it is marked, under the item of its
  // start, and carried out as asked for.
  ghost predicate EndTold(st: State, st1: State, offsetMs: nat) {
    var at := st.buffer.baseMs + offsetMs + st.cfg.turnDetection.silenceMs;
    var endMs := if at > InputBuffer.TotalMs(st.buffer) then InputBuffer.TotalMs(st.buffer) else at;
    && st1.trace == st.trace + [SpeechStopped(endMs, st.speechItem)] && st1.buffer == st.buffer.(segEndMs := endMs)
    && st1.speechItem == st.speechItem && st1.active == st.active && st1.conv == st.conv
    && st1.nextResp == st.nextResp && st1.cfg == st.cfg && st1.deferItem == st.deferItem
    && st1.transcriptAcc == st.transcriptAcc
    && !st1.turn.speaking && st1.turn.mode == st.turn.mode && st1.turn.createResponse == st.turn.createResponse
    && st1.turn.interruptResponse == st.turn.interruptResponse
  }

  lemma StoppedTells(st: State, offsetMs: nat)
    requires st.turn.speaking && Turns.TurnInv(st.turn)
    ensures EndTold(st, Stopped(st, offsetMs), offsetMs)
  {
    hide Turns.EndsSentence;
  }

  lemma StoppedKeeps(st: State, offsetMs: nat)
    requires ActorInv(st)
    ensures ActorInv(Armed(Stopped(st, offsetMs), Turns.Step(st.turn, Turns.VadSpeechEnd).1))
  {
    hide ActorInv;
    hide Evolves;
    hide Turns.Step;
    hide MarkEnd;
    var d := Turns.Step(st.turn, Turns.VadSpeechEnd).1;
    var st1 := MarkEnd(st, offsetMs);
    MarkEndKeeps(st, offsetMs);
    var e := SpeechStopped(InputBuffer.SpeechEndMs(st.buffer, offsetMs, st.cfg.turnDetection.silenceMs), st.speechItem);
    EmitOneKeeps(Armed(st1, d), e);
    ArmedEmits(st1, d, e);
  }

  lemma ArmedEmits(st: State, d: Turns.Decision, e: Event)
    ensures Armed(Emit(st, e), d) == Emit(Armed(st, d), e)
  {
  }

  lemma SpeechEndTells(st: State, offsetMs: nat, io: Io)
    requires ActorInv(st) && st.turn.speaking && InputBuffer.BufferInv(Stopped(st, offsetMs).buffer)
    ensures var st1 := Stopped(st, offsetMs);
            && EndTold(st, st1, offsetMs)
            && exists c :: Carried(st1, c, OnSpeechEnd(st, offsetMs, io), AskFor(st.turn, Turns.VadSpeechEnd), io)
  {
    hide ActorInv;
    hide Turns.Step;
    hide ApplyDecision;
    hide Stopped;
    hide Carried;
    hide AskFor;
    hide EndTold;
    hide InputBuffer.BufferInv;
    ActiveIsKnown(st);
    StoppedTells(st, offsetMs);
    StoppedKeeps(st, offsetMs);
    StoppedCloses(st, offsetMs, io);
    StepAsks(st.turn, Turns.VadSpeechEnd);
    DecisionTells(Stopped(st, offsetMs), Turns.Step(st.turn, Turns.VadSpeechEnd).1, io);
  }

  // ---- whole appends ----------------------------------------------------------------------------------------------

  // At i the client is told, one right after the other: the speech has stopped, its
  // audio is committed under the same item, the item is there, and the next response
  // is created.
  predicate AnsweredAt(st: State, st': State, i: nat) {
    && |st.trace| <= i && i + 3 < |st'.trace| && st'.trace[i].SpeechStopped?
    && (var item := st'.trace[i].item;
        && st'.trace[i + 1].AudioBufferCommitted? && st'.trace[i + 1].item == item
        && st'.trace[i + 2].ItemAdded? && st'.trace[i + 2].view.ref == item)
    && st'.trace[i + 3] == Event.ResponseCreated(st.nextResp + 1, st.cfg.textOnly)
  }

  lemma EndAnswers(st: State, d: Vad.Detector, offsetMs: nat, io: Io)
    requires ActorInv(st) && Mid(st, d) && st.turn.speaking && offsetMs <= d.elapsedMs && io.finalizeOk
    requires st.turn.mode.ServerVad? && st.turn.createResponse && st.active.None?
    ensures var st' := OnSpeechEnd(st, offsetMs, io);
            ActorInv(st') && st.trace <= st'.trace && AnsweredAt(st, st', |st.trace|)
  {
    hide ActorInv;
    hide Turns.Step;
    hide ApplyDecision;
    hide Stopped;
    hide OnSpeechEnd;
    hide StopsMatch;
    hide OpenSpeech;
    hide Good;
    MidStopped(st, d, offsetMs, io);
    SpeechEndTells(st, offsetMs, io);
    OnSpeechEndKeeps(st, offsetMs, io);
    GoodExtends(st, OnSpeechEnd(st, offsetMs, io));
    InputBuffer.CommitIsExact(Stopped(st, offsetMs).buffer);
  }

  // A response that was created stays told.
  lemma AnswerStays(st: State, st1: State, st2: State, st': State, i: nat)
    requires AnsweredAt(st1, st2, i) && st.trace <= st1.trace && st2.trace <= st'.trace
    requires st1.nextResp == st.nextResp && st1.cfg == st.cfg
    ensures AnsweredAt(st, st', i)
  {
  }

  lemma {:induction false} EventsAnswer(st: State, d: Vad.Detector, evs: seq<Vad.VadEvent>, io: Io, from: nat)
    requires ActorInv(st) && Mid(st, d) && IdleTrim.Alternates(evs, st.turn.speaking, d.speaking)
    requires d.silenceMs >= 0 && IdleTrim.AllWithin(evs, from, d.elapsedMs, d.silenceMs)
    requires st.turn.mode.ServerVad? && st.turn.createResponse && st.active.None? && io.finalizeOk
    requires exists i :: 0 <= i < |evs| && evs[i].SpeechEnd?
    ensures exists i :: AnsweredAt(st, OnVadEvents(st, evs, io), i)
    decreases |evs|
  {
    hide ActorInv;
    hide Good;
    hide Mid;
    hide OnSpeechStart;
    hide OnSpeechEnd;
    hide AnsweredAt;
    hide StartMs;
    hide Turns.Step;
    assert IdleTrim.Within(evs[0], from, d.elapsedMs, d.silenceMs);
    IdleTrim.AllWithinRest(evs, from, d.elapsedMs, d.silenceMs);
    var rest := evs[1..];
    var st' := OnVadEvents(st, evs, io);
    MidListens(st, d);
    if evs[0].SpeechEnd? {
      var st1 := OnSpeechEnd(st, evs[0].offsetMs, io);
      EndAnswers(st, d, evs[0].offsetMs, io);
      OnVadEventsKeeps(st1, rest, io);
      GoodExtends(st1, st');
      AnswerStays(st, st, st1, st', |st.trace|);
    } else {
      var st1 := OnSpeechStart(st, evs[0].offsetMs, io);
      MidStart(st, d, evs[0].offsetMs, io);
      SpeechStartTells(st, evs[0].offsetMs, io);
      OnSpeechStartKeeps(st, evs[0].offsetMs, io);
      GoodExtends(st, st1);
      var k :| 0 <= k < |evs| && evs[k].SpeechEnd?;
      assert rest[k - 1].SpeechEnd?;
      EventsAnswer(st1, d, rest, io, from);
      var i :| AnsweredAt(st1, OnVadEvents(st1, rest, io), i);
      AnswerStays(st, st1, st', st', i);
    }
  }

  lemma GoodExtends(st: State, st': State)
    requires Good(st, st')
    ensures ActorInv(st') && st.trace <= st'.trace
  {
    hide ActorInv;
    hide Talks;
    hide ItemsKept;
  }

  lemma MidListens(st: State, d: Vad.Detector)
    requires Mid(st, d)
    ensures !st.turn.mode.Manual?
  {
  }

  // Some event of the append's is an end, or a start.
  ghost predicate Brings(st: State, pcm: Bytes, end: bool)
    requires st.detector.Some?
  {
    var evs := Vad.Process(st.detector.value, pcm).1;
    exists i :: 0 <= i < |evs| && evs[i].SpeechEnd? == end
  }

  // After any run in which nothing is lost, when the settings ask for responses to the
  // turns of server_vad, an append that brings the end of a turn while none is active
  // has it answered: speech stopped, its audio committed under the very item, and the
  // next response created.
  lemma SpokenTurnIsAnswered(cfg: Config, bufferMaxMs: nat, isLetter: Rune -> bool, steps: seq<Step>, pcm: Bytes,
                             io: Io)
    requires MayRun(NewSystem(cfg, bufferMaxMs), isLetter, steps)
    requires NothingLost(NewSystem(cfg, bufferMaxMs), isLetter, steps)
    ensures var st := Run(NewSystem(cfg, bufferMaxMs), isLetter, steps).actor;
            var td := st.cfg.turnDetection;
            && td.mode.ServerVad? && td.createResponse && st.active.None? && io.pushOk && io.finalizeOk
            && !InputBuffer.Overflows(st.buffer, pcm) && st.detector.Some? && Brings(st, pcm, true) ==>
              exists i :: AnsweredAt(st, OnAudio(st, pcm, io), i)
  {
    hide SpeechInv;
    hide SysInv;
    hide AnsweredAt;
    hide Vad.Process;
    NewSessionSpeech(cfg, bufferMaxMs);
    NewSystemInv(cfg, bufferMaxMs);
    RunSpeech(NewSystem(cfg, bufferMaxMs), isLetter, steps);
    RunKeeps(NewSystem(cfg, bufferMaxMs), isLetter, steps);
    SpeechAgreesEverywhere(cfg, bufferMaxMs, isLetter, steps);
    var s := Run(NewSystem(cfg, bufferMaxMs), isLetter, steps);
    ActorHolds(s);
    var st := s.actor;
    if st.cfg.turnDetection.mode.ServerVad? && st.cfg.turnDetection.createResponse && st.active.None?
       && io.pushOk && io.finalizeOk && !InputBuffer.Overflows(st.buffer, pcm) && st.detector.Some?
       && Brings(st, pcm, true)
    {
      AppendAnswers(st, pcm, io);
    }
  }

  lemma AppendAnswers(st: State, pcm: Bytes, io: Io)
    requires ActorInv(st) && SpeechInv(st) && st.detector.Some? && Brings(st, pcm, true)
    requires st.turn.mode.ServerVad? && st.turn.createResponse && st.active.None? && io.pushOk && io.finalizeOk
    requires !InputBuffer.Overflows(st.buffer, pcm)
    ensures exists i :: AnsweredAt(st, OnAudio(st, pcm, io), i)
  {
    hide ActorInv;
    hide Evolves;
    hide SpeechInv;
    hide Mid;
    hide OnVadEvents;
    hide Vad.Process;
    hide OnAudio;
    hide AnsweredAt;
    AudioUnfolds(st, pcm, io);
    var (d, evs) := Vad.Process(st.detector.value, pcm);
    if pcm == [] { SilentAppend(st, io); }
    HeardIsMid(st, pcm);
    BufferKeeps(st, Heard(st, pcm).buffer, Heard(st, pcm).detector);
    EventsAnswer(Heard(st, pcm), d, evs, io, st.detector.value.elapsedMs);
    var st' := OnVadEvents(Heard(st, pcm), evs, io);
    var i :| AnsweredAt(Heard(st, pcm), st', i);
    SameAnswer(st, Heard(st, pcm), st', Trimmed(st'), i);
  }

  lemma SameAnswer(st: State, st1: State, st2: State, st': State, i: nat)
    requires AnsweredAt(st1, st2, i) && st1.trace == st.trace && st'.trace == st2.trace
    requires st1.nextResp == st.nextResp && st1.cfg == st.cfg
    ensures AnsweredAt(st, st', i)
  {
  }

  // ---- answering nothing else ------------------------------------------------------------------------------------

  // Turns are not answered by an append.
  predicate Unanswered(t: Turns.Turn) {
    !(t.mode.ServerVad? && t.createResponse)
  }

  lemma StartCreatesNone(st: State, offsetMs: nat, io: Io)
    requires ActorInv(st) && Unanswered(st.turn)
    ensures var st' := OnSpeechStart(st, offsetMs, io);
            ActorInv(st') && st'.nextResp == st.nextResp && Unanswered(st'.turn)
  {
    hide ActorInv;
    hide Good;
    hide OnSpeechStart;
    hide StartMs;
    OnSpeechStartKeeps(st, offsetMs, io);
    GoodIsSound(st, OnSpeechStart(st, offsetMs, io));
    if st.turn.mode.Manual? { StartIsIgnored(st, offsetMs, io); } else { SpeechStartTells(st, offsetMs, io); }
  }

  lemma StartIsIgnored(st: State, offsetMs: nat, io: Io)
    requires st.turn.mode.Manual?
    ensures OnSpeechStart(st, offsetMs, io).nextResp == st.nextResp && OnSpeechStart(st, offsetMs, io).turn == st.turn
  {
    hide ApplyDecision;
    hide MarkStart;
    hide Turns.Step;
    var st1 := ReserveSpeechItem(st);
    var st2 := MarkStart(st1, offsetMs);
    var d := Turns.Step(st1.turn, Turns.VadSpeechStart).1;
    ManualIsDeaf(st1, offsetMs);
    Untriggered(st2, d, io);
  }

  lemma ManualIsDeaf(st: State, offsetMs: nat)
    requires st.turn.mode.Manual?
    ensures Turns.Step(st.turn, Turns.VadSpeechStart).1 == Turns.NOTHING
    ensures MarkStart(st, offsetMs).turn == st.turn && MarkStart(st, offsetMs).nextResp == st.nextResp
  {
  }

  lemma EndCreatesNone(st: State, offsetMs: nat, io: Io)
    requires ActorInv(st) && Unanswered(st.turn)
    ensures var st' := OnSpeechEnd(st, offsetMs, io);
            ActorInv(st') && st'.nextResp == st.nextResp && Unanswered(st'.turn)
  {
    hide ActorInv;
    hide Good;
    hide ApplyDecision;
    hide MarkEnd;
    hide Turns.Step;
    OnSpeechEndKeeps(st, offsetMs, io);
    GoodIsSound(st, OnSpeechEnd(st, offsetMs, io));
    ActiveIsKnown(st);
    Turns.TurnEndsAnswer(st.turn, Turns.VadSpeechEnd);
    var d := Turns.Step(st.turn, Turns.VadSpeechEnd).1;
    var st1 := MarkEnd(st, offsetMs);
    var endMs := InputBuffer.SpeechEndMs(st.buffer, offsetMs, st.cfg.turnDetection.silenceMs);
    MarkEndLeaves(st, offsetMs);
    Untriggered(st1, d, io);
    Untriggered(Emit(st1, SpeechStopped(endMs, st1.speechItem)), d, io);
  }

  lemma Untriggered(st: State, d: Turns.Decision, io: Io)
    requires !d.trigger
    ensures ApplyDecision(st, d, io).nextResp == st.nextResp && ApplyDecision(st, d, io).turn == st.turn
  {
    hide Commit;
    hide StartResponse;
    BeforeLeaves(st, d, io);
  }

  lemma {:induction false} EventsCreateNone(st: State, evs: seq<Vad.VadEvent>, io: Io)
    requires ActorInv(st) && Unanswered(st.turn)
    ensures OnVadEvents(st, evs, io).nextResp == st.nextResp
    decreases |evs|
  {
    hide ActorInv;
    hide OnSpeechStart;
    hide OnSpeechEnd;
    if evs != [] {
      StartCreatesNone(st, evs[0].offsetMs, io);
      EndCreatesNone(st, evs[0].offsetMs, io);
      EventsCreateNone(if evs[0].SpeechStart? then OnSpeechStart(st, evs[0].offsetMs, io)
                       else OnSpeechEnd(st, evs[0].offsetMs, io), evs[1..], io);
    }
  }

  // An append creates no response unless the turns of server_vad are to be answered.
  lemma NothingElseIsAnswered(s: System, isLetter: Rune -> bool, pcm: Bytes, io: Io)
    requires Reachable(s, isLetter) && Unanswered(s.actor.turn)
    ensures OnAudio(s.actor, pcm, io).nextResp == s.actor.nextResp
  {
    hide SysInv;
    hide ActorInv;
    hide Evolves;
    hide Reachable;
    hide OnVadEvents;
    hide Vad.Process;
    ReachableIsSound(s, isLetter);
    ActorHolds(s);
    var st := s.actor;
    if st.detector.Some? {
      var st1 := Heard(st, pcm);
      BufferKeeps(st, st1.buffer, st1.detector);
      EventsCreateNone(st1, Vad.Process(st.detector.value, pcm).1, io);
    }
  }

  // ---- barging in ---------------------------------------------------------------------------------------------------

  // Speech starts at i, and at j response resp is over for it.
  predicate InterruptedAt(st: State, st': State, resp: ResponseRef, i: nat, j: nat) {
    && |st.trace| <= i < j < |st'.trace| && st'.trace[i].SpeechStarted?
    && st'.trace[j].ResponseDone? && st'.trace[j].resp == resp
    && st'.trace[j].status.ResponseCancelled? && st'.trace[j].reason.TurnDetected?
  }

  ghost predicate Interrupted(st: State, st': State, resp: ResponseRef) {
    exists i, j :: InterruptedAt(st, st', resp, i, j)
  }

  lemma StartInterrupts(st: State, offsetMs: nat, io: Io)
    requires ActorInv(st) && !st.turn.mode.Manual? && st.turn.interruptResponse && st.active.Some?
    ensures Interrupted(st, OnSpeechStart(st, offsetMs, io), st.active.value.ref)
  {
    hide ActorInv;
    hide OnSpeechStart;
    SpeechStartTells(st, offsetMs, io);
    var st' := OnSpeechStart(st, offsetMs, io);
    assert InterruptedAt(st, st', st.active.value.ref, |st.trace|, |st'.trace| - 1);
  }

  lemma InterruptionStays(st: State, st1: State, st2: State, st': State, resp: ResponseRef)
    requires Interrupted(st1, st2, resp) && st.trace <= st1.trace && st2.trace <= st'.trace
    ensures Interrupted(st, st', resp)
  {
    var i: nat, j: nat :| InterruptedAt(st1, st2, resp, i, j);
    assert InterruptedAt(st, st', resp, i, j);
  }

  lemma NoneCreated(st: State, d: Turns.Decision, io: Io)
    requires st.active.Some?
    ensures ApplyDecision(st, d, io).active == st.active && ApplyDecision(st, d, io).turn == st.turn
  {
    hide Commit;
    hide StartResponse;
    BeforeLeaves(st, d, io);
  }

  lemma MarkEndLeaves(st: State, offsetMs: nat)
    ensures var st' := MarkEnd(st, offsetMs);
            && st'.active == st.active && st'.turn.mode == st.turn.mode
            && st'.turn.interruptResponse == st.turn.interruptResponse
            && st'.turn.createResponse == st.turn.createResponse && st'.nextResp == st.nextResp
  {
    hide Turns.Step;
    hide InputBuffer.SpeechEndMs;
    SpeechEndLeaves(st.turn);
  }

  lemma SpeechEndLeaves(t: Turns.Turn)
    ensures var t' := Turns.Step(t, Turns.VadSpeechEnd).0;
            && t'.mode == t.mode && t'.interruptResponse == t.interruptResponse
            && t'.createResponse == t.createResponse
  {
    hide Turns.EndsSentence;
  }

  // The end of a speech leaves an active response as it is.
  lemma EndLeaves(st: State, offsetMs: nat, io: Io)
    requires st.active.Some?
    ensures var st' := OnSpeechEnd(st, offsetMs, io);
            && st'.active == st.active && st'.turn.mode == st.turn.mode
            && st'.turn.interruptResponse == st.turn.interruptResponse
  {
    hide ApplyDecision;
    hide MarkEnd;
    hide Turns.Step;
    var d := Turns.Step(st.turn, Turns.VadSpeechEnd).1;
    var st1 := MarkEnd(st, offsetMs);
    var endMs := InputBuffer.SpeechEndMs(st.buffer, offsetMs, st.cfg.turnDetection.silenceMs);
    MarkEndLeaves(st, offsetMs);
    NoneCreated(st1, d, io);
    NoneCreated(Emit(st1, SpeechStopped(endMs, st1.speechItem)), d, io);
  }

  lemma {:induction false} EventsInterrupt(st: State, evs: seq<Vad.VadEvent>, io: Io)
    requires ActorInv(st) && !st.turn.mode.Manual? && st.turn.interruptResponse && st.active.Some?
    requires exists i :: 0 <= i < |evs| && evs[i].SpeechStart?
    ensures Interrupted(st, OnVadEvents(st, evs, io), st.active.value.ref)
    decreases |evs|
  {
    hide ActorInv;
    hide Good;
    hide OnSpeechStart;
    hide OnSpeechEnd;
    hide Interrupted;
    var rest := evs[1..];
    var st' := OnVadEvents(st, evs, io);
    if evs[0].SpeechStart? {
      var st1 := OnSpeechStart(st, evs[0].offsetMs, io);
      StartInterrupts(st, evs[0].offsetMs, io);
      OnSpeechStartKeeps(st, evs[0].offsetMs, io);
      GoodExtends(st, st1);
      OnVadEventsKeeps(st1, rest, io);
      GoodExtends(st1, st');
      InterruptionStays(st, st, st1, st', st.active.value.ref);
    } else {
      var st1 := OnSpeechEnd(st, evs[0].offsetMs, io);
      EndLeaves(st, evs[0].offsetMs, io);
      OnSpeechEndKeeps(st, evs[0].offsetMs, io);
      GoodExtends(st, st1);
      var k :| 0 <= k < |evs| && evs[k].SpeechStart?;
      assert rest[k - 1].SpeechStart?;
      EventsInterrupt(st1, rest, io);
      InterruptionStays(st, st1, st', st', st.active.value.ref);
    }
  }

  // In every reachable session an append that brings the start of speech ends the
  // active response, as cancelled for the turn detected, when responses may be
  // interrupted.
  lemma SpeechInterrupts(s: System, isLetter: Rune -> bool, pcm: Bytes, io: Io)
    requires Reachable(s, isLetter) && s.actor.active.Some? && s.actor.turn.interruptResponse
    requires !s.actor.turn.mode.Manual? && s.actor.detector.Some? && Brings(s.actor, pcm, false)
    requires io.pushOk && !InputBuffer.Overflows(s.actor.buffer, pcm)
    ensures Interrupted(s.actor, OnAudio(s.actor, pcm, io), s.actor.active.value.ref)
  {
    hide SysInv;
    hide ActorInv;
    hide Evolves;
    hide Reachable;
    hide Interrupted;
    hide OnVadEvents;
    hide OnAudio;
    hide Vad.Process;
    ReachableIsSound(s, isLetter);
    ActorHolds(s);
    var st := s.actor;
    AudioUnfolds(st, pcm, io);
    var st1 := Heard(st, pcm);
    BufferKeeps(st, st1.buffer, st1.detector);
    var evs := Vad.Process(st.detector.value, pcm).1;
    EventsInterrupt(st1, evs, io);
    var st2 := OnVadEvents(st1, evs, io);
    InterruptionStays(st, st1, st2, Trimmed(st2), st.active.value.ref);
  }
}
