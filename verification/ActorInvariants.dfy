// What every handler of the actor keeps.
module ActorInvariants {
  import opened Audio
  import opened Utf8
  import opened Conversations
  import opened Events
  import opened Grammar
  import opened Actor
  import Turns
  import InputBuffer
  import Vad

  // ---- responses ----------------------------------------------------------------------------

  // What the client has been told about the open response matches the actor's
  // record of it.
  ghost predicate Told(conv: Conversation, r: Response, o: Running) {
    && o.resp == r.ref && o.textOnly == r.textOnly
    && o.msg == r.item
    && o.tool == (if r.toolItem == 0 then NoTool else ToolDelivered)
    && o.closing.Streaming?
    && (r.item == 0 ==> o.text == [] && o.bytes == 0 && !r.spoke)
    && (r.item != 0 ==> r.item in conv.index && ItemTold(conv.index[r.item], r, o))
  }

  ghost predicate ItemTold(it: Item, r: Response, o: Running) {
    && it.view.role.AssistantRole?
    && it.view.content == (if r.textOnly then TextContent else AudioContent)
    && (!o.truncated ==>
          it.view.text == o.text && it.audioBytes == o.bytes && it.view.audioMs == o.bytes / 48)
  }

  ghost predicate ActiveInv(st: State, r: Response) {
    && r.status.ResponseInProgress?
    && r.ref == st.nextResp
    && (if r.awaiting then r.item == 0 && r.toolItem == 0 && !r.spoke && !r.llmDone && !r.ttsDone
        else r.gen == st.activeGen)
    && r.audioFlushed == r.ttsDone && !Done(r)
    && ParseAll(st.trace).Open? && Told(st.conv, r, ParseAll(st.trace).run)
  }

  // Only assistant items have segments, and no item has the tool role.
  predicate WellMade(it: Item) {
    !it.view.role.ToolRole? && (!it.view.role.AssistantRole? ==> it.segments == [])
  }

  ghost predicate ItemsInv(st: State) {
    && ConvInv(st.conv)
    && (forall ref :: ref in st.conv.index ==> WellMade(st.conv.index[ref]))
    && (st.pendingItem != 0 ==>
          && st.pendingItem in st.conv.index
          && var v := st.conv.index[st.pendingItem].view;
             v.role.UserRole? && v.content.AudioContent? && !v.transcriptDone)
    && (st.speechItem != 0 ==> st.speechItem <= st.conv.next && st.speechItem !in st.conv.index)
  }

  ghost predicate ResponseInv(st: State) {
    && ItemsInv(st)
    && (st.active.None? ==> ParseAll(st.trace) == Idle(st.nextResp))
    && (st.active.Some? ==> ActiveInv(st, st.active.value))
  }

  // ---- timers ---------------------------------------------------------------------------------

  // Every wait is bounded by an armed timer, and no timer is armed without its
  // wait; a turn that is pending has a timer armed in that very turn.
  ghost predicate TimerInv(st: State) {
    && (st.asrWait <==> st.active.Some? && st.active.value.awaiting)
    && (st.deferItem != 0 <==> st.deferWait)
    && (st.turn.responseActive <==> st.active.Some?)
    && Turns.TurnInv(st.turn)
    && (st.turn.pendingEot ==> st.eot == Some(st.turnNo))
    && (st.turn.speaking ==> st.eot.None?)
    && (st.eot.Some? ==> st.eot.value <= st.turnNo)
  }

  ghost predicate ActorInv(st: State) {
    ResponseInv(st) && TimerInv(st)
  }

  lemma NewSessionInv(cfg: Config, bufferMaxMs: nat)
    ensures ActorInv(NewSession(cfg, bufferMaxMs))
  {
  }

  // A queued fact that passes the generation filter speaks about the active
  // response, in its modality.
  ghost predicate Addressed(st: State, ev: PipeEvent) {
    Fresh(st, ev) ==>
      var r := st.active.value;
      match ev
      case PipeTextDelta(_, resp, _) => resp == r.ref && r.textOnly
      case PipeTranscriptDelta(_, resp, _) => resp == r.ref && !r.textOnly
      case PipeAudioDelta(_, resp, _) => resp == r.ref && !r.textOnly
      case _ => true
  }

  // ---- how a handler moves the conversation on ---------------------------------------------------

  predicate IsRunning(st: State) {
    st.active.Some? && !st.active.value.awaiting
  }

  // The running response is untouched, but for a truncate of its item.
  ghost predicate Continued(st: State, st': State) {
    && IsRunning(st) && st'.active == st.active && st'.activeGen == st.activeGen && st'.launches == st.launches
    && ParseAll(st.trace).Open? && ParseAll(st'.trace).Open?
    && (var o := ParseAll(st.trace).run;
        var o' := ParseAll(st'.trace).run;
        o'.text == o.text && o'.bytes == o.bytes && (o.truncated ==> o'.truncated))
    && (var item := st.active.value.item;
        item != 0 ==> item in st.conv.index && item in st'.conv.index
                      && st'.conv.index[item].segments == st.conv.index[item].segments
                      && st'.conv.index[item].alignment == st.conv.index[item].alignment)
  }

  // The response is running because its pipeline has just been started.
  ghost predicate Launched(st: State, st': State) {
    && |st.launches| < |st'.launches|
    && IsRunning(st')
    && var r := st'.active.value;
       var l := st'.launches[|st'.launches| - 1];
       && l.gen == st'.activeGen == r.gen && l.resp == r.ref && l.textOnly == r.textOnly
       && r.item == 0 && r.toolItem == 0 && !r.spoke && !r.llmDone && !r.ttsDone
  }

  ghost predicate Talks(st: State, st': State) {
    && st.activeGen <= st'.activeGen
    && st.launches <= st'.launches
    && (forall i :: |st.launches| <= i < |st'.launches| ==> st.activeGen < st'.launches[i].gen <= st'.activeGen)
    && (forall i, j :: |st.launches| <= i < j < |st'.launches| ==> st'.launches[i].gen < st'.launches[j].gen)
    && (IsRunning(st') ==> Continued(st, st') || Launched(st, st'))
  }

  // An item a client may truncate.
  predicate Spoken(it: Item) {
    it.view.role.AssistantRole? && it.view.content.AudioContent?
  }

  // The item is still the same, but for its text and the audio heard of it.
  predicate SameRecord(it: Item, it': Item) {
    && it'.segments == it.segments && it'.view.role == it.view.role && it'.view.content == it.view.content
  }

  // All that truncation looks at.
  predicate Kept(it: Item, it': Item) {
    SameRecord(it, it') && it'.view.text == it.view.text && it'.audioBytes == it.audioBytes
  }

  // What truncation looks at stays as it is, unless the item is truncated; no new
  // item is one to truncate.
  ghost predicate ItemsKept(st: State, st': State) {
    forall ref :: ref in st'.conv.index ==>
      || (st'.conv.index[ref].segments == [] && !Spoken(st'.conv.index[ref]))
      || (ref in st.conv.index && SameRecord(st.conv.index[ref], st'.conv.index[ref])
          && (Kept(st.conv.index[ref], st'.conv.index[ref]) || WasTruncated(st'.trace, ref)))
  }

  ghost predicate Evolves(st: State, st': State) {
    st.trace <= st'.trace && Talks(st, st') && ItemsKept(st, st')
  }

  lemma TalksTransitive(a: State, b: State, c: State)
    requires Talks(a, b) && Talks(b, c)
    ensures Talks(a, c)
  {
    hide ParseAll;
    TalksOn(a, b, c);
    forall i | |a.launches| <= i < |c.launches| ensures a.activeGen < c.launches[i].gen <= c.activeGen {
      if i < |b.launches| { assert c.launches[i] == b.launches[i]; }
    }
    forall i, j | |a.launches| <= i < j < |c.launches| ensures c.launches[i].gen < c.launches[j].gen {
      if i < |b.launches| { assert c.launches[i] == b.launches[i]; }
      if j < |b.launches| { assert c.launches[j] == b.launches[j]; }
    }
  }

  // A response that runs in the end has gone on, or was launched on the way.
  lemma TalksOn(a: State, b: State, c: State)
    requires Talks(a, b) && Talks(b, c)
    ensures IsRunning(c) ==> Continued(a, c) || Launched(a, c)
  {
    hide ParseAll;
    if IsRunning(c) && Continued(b, c) && Launched(a, b) {
      assert c.launches == b.launches;
    }
  }

  lemma ItemsKeptTransitive(a: State, b: State, c: State)
    requires ItemsKept(a, b) && ItemsKept(b, c) && b.trace <= c.trace
    ensures ItemsKept(a, c)
  {
    forall ref | ref in c.conv.index && (c.conv.index[ref].segments != [] || Spoken(c.conv.index[ref]))
      ensures ref in a.conv.index && SameRecord(a.conv.index[ref], c.conv.index[ref])
      ensures Kept(a.conv.index[ref], c.conv.index[ref]) || WasTruncated(c.trace, ref)
    {
      if !WasTruncated(c.trace, ref) { assert !WasTruncated(b.trace, ref); }
    }
  }

  lemma EvolvesTransitive(a: State, b: State, c: State)
    requires Evolves(a, b) && Evolves(b, c)
    ensures Evolves(a, c)
  {
    hide Talks;
    hide ItemsKept;
    TalksTransitive(a, b, c);
    ItemsKeptTransitive(a, b, c);
  }

  // What every handler but the pipeline's does to a good state.
  ghost predicate Good(st: State, st': State) {
    ActorInv(st') && Evolves(st, st')
  }

  lemma GoodIsLegal(st: State, st': State)
    requires Good(st, st')
    ensures ActorInv(st') && Legal(st'.trace) && st.trace <= st'.trace
  {
    hide ParseAll;
  }

  lemma GoodTransitive(a: State, b: State, c: State)
    requires Good(a, b) && Good(b, c)
    ensures Good(a, c)
  {
    hide Evolves;
    EvolvesTransitive(a, b, c);
  }

  // ---- small steps ------------------------------------------------------------------------------

  lemma EmitKeeps(st: State, es: seq<Event>)
    requires ActorInv(st) && forall i :: 0 <= i < |es| ==> Plain(es[i])
    ensures Good(st, EmitAll(st, es))
  {
    hide Advance;
    hide ParseAll;
    ParseAppend(st.trace, es);
    PlainEvents(ParseAll(st.trace), es);
  }

  lemma ErrorKeeps(st: State, code: ErrorCode)
    requires ActorInv(st)
    ensures Good(st, EmitError(st, code))
    ensures Good(st, Fatal(st, code))
  {
    hide ActorInv;
    hide Evolves;
    EmitKeeps(st, [ErrorEvent(code, false)]);
    EmitKeeps(st, [ErrorEvent(code, true)]);
    var st1 := EmitAll(st, [ErrorEvent(code, true)]);
    PanicKeeps(st1);
    GoodTransitive(st, st1, st1.(cancelled := true));
  }

  // Appending an item: under the ref reserved at speech start, or a new one.
  lemma AppendKeeps(st: State, it: Item)
    requires ItemsInv(st)
    requires it.view.ref == 0 || it.view.ref == st.speechItem
    ensures var added := AppendItem(st.conv, it);
            && ConvInv(added.conv)
            && added.conv.index == st.conv.index[added.item.view.ref := added.item]
            && added.item.view.ref !in st.conv.index && added.item.view.ref != 0
            && added.item == it.(view := it.view.(ref := added.item.view.ref))
            && (it.view.ref == 0 ==> added.item.view.ref == st.conv.next + 1)
            && added.conv.next >= st.conv.next
  {
    InsertKeeps(st.conv, it, AtEnd);
    InsertPlaces(st.conv, it, AtEnd);
  }

  lemma FinishParses(st: State, status: ResponseStatus, reason: StatusReason)
    requires ResponseInv(st) && st.active.Some? && !status.ResponseInProgress?
    ensures ParseAll(FinishResponse(st, status, reason).trace) == Idle(st.nextResp)
  {
    hide Advance;
    hide ParseAll;
    var r := st.active.value;
    var o := ParseAll(st.trace).run;
    var st' := FinishResponse(st, status, reason);
    var es := st'.trace[|st.trace|..];
    assert st'.trace == st.trace + es;
    ParseAppend(st.trace, es);
    if r.item == 0 {
      EmptyDoneParses(o, status, reason, Output(st'.conv, r));
    } else {
      DoneParses(o, Closed(st.conv.index[r.item], status).view, status, reason, Output(st'.conv, r));
    }
  }

  lemma FinishKeeps(st: State, status: ResponseStatus, reason: StatusReason)
    requires ResponseInv(st) && TimerInv(st) && st.active.Some? && !status.ResponseInProgress?
    ensures Good(st, FinishResponse(st, status, reason))
    ensures FinishResponse(st, status, reason).active.None?
  {
    hide FinishResponse;
    hide TimerInv;
    hide ResponseInv;
    hide Evolves;
    FinishLeaves(st, status, reason);
    FinishEvolves(st, status, reason);
    assert st.active.value.status.ResponseInProgress? by { ActiveIsInProgress(st); }
    FinishTimers(st, status, reason);
  }

  lemma ActiveIsInProgress(st: State)
    requires ResponseInv(st) && st.active.Some?
    ensures st.active.value.status.ResponseInProgress?
  {
  }

  lemma FinishLeaves(st: State, status: ResponseStatus, reason: StatusReason)
    requires ResponseInv(st) && st.active.Some? && !status.ResponseInProgress?
    ensures ResponseInv(FinishResponse(st, status, reason))
    ensures FinishResponse(st, status, reason).active.None?
  {
    hide ParseAll;
    hide CloseEvents;
    hide Turns.Step;
    hide Output;
    FinishParses(st, status, reason);
    var r := st.active.value;
    if r.item != 0 {
      UpdateKeeps(st.conv, Closed(st.conv.index[r.item], status));
    }
  }

  lemma FinishEvolves(st: State, status: ResponseStatus, reason: StatusReason)
    requires ResponseInv(st) && st.active.Some?
    ensures Evolves(st, FinishResponse(st, status, reason))
  {
    hide ParseAll;
    hide CloseEvents;
    hide Turns.Step;
    hide Output;
    hide WasTruncated;
  }

  lemma FinishTimers(st: State, status: ResponseStatus, reason: StatusReason)
    requires TimerInv(st) && st.active.Some? && st.active.value.status.ResponseInProgress?
    ensures TimerInv(FinishResponse(st, status, reason))
  {
    hide CloseEvents;
    hide Output;
    hide Turns.EndsSentence;
  }

  // Ready to start its pipeline: awaiting, but with no timer armed for it.
  ghost predicate Startable(st: State) {
    && ResponseInv(st) && !st.asrWait
    && st.active.Some? && st.active.value.awaiting
    && TimerInv(st.(asrWait := true))
  }

  lemma StartKeeps(st: State)
    requires Startable(st)
    ensures Good(st, StartPipeline(st))
  {
    hide MessagesOf;
    hide ParseAll;
  }

  lemma CreatedKeeps(st: State, textOnly: bool)
    requires ActorInv(st) && st.active.None?
    ensures Startable(Created(st, NewResponse(st.nextResp + 1, textOnly)))
    ensures Evolves(st, Created(st, NewResponse(st.nextResp + 1, textOnly)))
  {
    hide Advance;
    hide ParseAll;
    ParseSnoc(st.trace, Event.ResponseCreated(st.nextResp + 1, textOnly));
    CreatedEvent(st.nextResp, st.nextResp + 1, textOnly);
  }

  // Arming the transcript wait of a response that awaits item.
  lemma AwaitKeeps(st: State, st1: State, item: ItemRef)
    requires Startable(st1) && Evolves(st, st1)
    ensures Good(st, st1.(active := Some(st1.active.value.(dependsOn := item)), asrWait := true))
  {
    hide ParseAll;
  }

  lemma StartResponseKeeps(st: State, ov: Overrides)
    requires ActorInv(st) && st.active.None?
    ensures Good(st, StartResponse(st, ov))
  {
    hide StartPipeline;
    hide Good;
    hide ActorInv;
    hide Startable;
    hide Evolves;
    ErrorKeeps(st, VoiceLocked);
    ErrorKeeps(st, InvalidOverrides);
    var r := NewResponse(st.nextResp + 1, Or(ov.textOnly, st.cfg.textOnly));
    CreatedKeeps(st, r.textOnly);
    AwaitKeeps(st, Created(st, r), st.pendingItem);
    StartedIsGood(st, Created(st, r));
  }

  lemma StartedIsGood(st: State, st1: State)
    requires Startable(st1) && Evolves(st, st1)
    ensures Good(st, StartPipeline(st1))
  {
    hide StartPipeline;
    hide Evolves;
    StartKeeps(st1);
    EvolvesTransitive(st, st1, StartPipeline(st1));
  }

  // ---- turns ------------------------------------------------------------------------------------------

  // Changes that touch neither the conversation nor the responses nor a wait.
  ghost predicate Aside(st: State, st': State) {
    && st'.conv == st.conv && st'.active == st.active && st'.activeGen == st.activeGen
    && st'.nextResp == st.nextResp && st'.launches == st.launches && st'.trace == st.trace
    && st'.pendingItem == st.pendingItem && st'.asrWait == st.asrWait
    && (st'.speechItem == st.speechItem || st'.speechItem == 0)
  }

  lemma AsideKeeps(st: State, st': State)
    requires ActorInv(st) && Aside(st, st') && TimerInv(st')
    ensures Good(st, st')
  {
    hide ParseAll;
  }

  // A user item holding the committed audio.
  function SpokenItem(ref: ItemRef, text: Text, audioMs: int): Item {
    Item(ItemView(ref, UserRole, AudioContent, InProgress, text, audioMs, false, [], []), [], [], 0)
  }

  // A new item without segments is put into the conversation and announced.
  ghost predicate PutItem(st: State, st': State, it: Item) {
    && ConvInv(st'.conv) && st'.conv.index == st.conv.index[it.view.ref := it] && st'.conv.next >= st.conv.next
    && it.view.ref !in st.conv.index && it.segments == [] && !it.view.role.ToolRole? && !Spoken(it)
    && st'.active == st.active && st'.activeGen == st.activeGen
    && st'.nextResp == st.nextResp && st'.launches == st.launches && st'.asrWait == st.asrWait
    && st.trace <= st'.trace && ParseAll(st'.trace) == ParseAll(st.trace)
    && (st'.pendingItem == st.pendingItem
        || (st'.pendingItem == it.view.ref && it.view.role.UserRole? && it.view.content.AudioContent?
            && !it.view.transcriptDone))
    && (st'.speechItem == 0 || (st'.speechItem == st.speechItem && it.view.ref != st.speechItem))
  }

  lemma PutKeeps(st: State, st': State, it: Item)
    requires ActorInv(st) && PutItem(st, st', it) && TimerInv(st')
    ensures Good(st, st')
  {
    hide ParseAll;
  }

  // The state commit() leaves behind when there is audio.
  lemma CommitPlaces(st: State, io: Io)
    requires ActorInv(st) && st.buffer.pcm != [] && InputBuffer.Sliceable(st.buffer)
    ensures var st' := Commit(st, io.(finalizeOk := true)).st;
            Good(st, st') && st'.pendingItem != 0
  {
    hide PutItem;
    hide Commit;
    hide ActorInv;
    hide Evolves;
    var it := SpokenItem(st.speechItem, st.transcriptAcc,
                         InputBuffer.CommitEndMs(st.buffer) - InputBuffer.CommitStartMs(st.buffer));
    CommitIsPut(st, io, it);
    CommitTimers(st, io);
    PutKeeps(st, Commit(st, io.(finalizeOk := true)).st, AppendItem(st.conv, it).item);
  }

  lemma CommitTimers(st: State, io: Io)
    requires ActorInv(st) && st.buffer.pcm != [] && InputBuffer.Sliceable(st.buffer)
    ensures TimerInv(Commit(st, io.(finalizeOk := true)).st)
  {
    hide ResponseInv;
    hide AppendItem;
  }

  lemma CommitIsPut(st: State, io: Io, it: Item)
    requires ActorInv(st) && st.buffer.pcm != [] && InputBuffer.Sliceable(st.buffer)
    requires it == SpokenItem(st.speechItem, st.transcriptAcc,
                              InputBuffer.CommitEndMs(st.buffer) - InputBuffer.CommitStartMs(st.buffer))
    ensures var st' := Commit(st, io.(finalizeOk := true)).st;
            PutItem(st, st', AppendItem(st.conv, it).item) && st'.pendingItem != 0
  {
    hide ParseAll;
    hide AdvanceAll;
    hide TimerInv;
    hide AppendItem;
    AppendKeeps(st, it);
    var added := AppendItem(st.conv, it);
    var es := [AudioBufferCommitted(added.item.view.ref, added.previous), ItemAdded(added.item.view, added.previous)];
    ParseAppend(st.trace, es);
    PlainEvents(ParseAll(st.trace), es);
  }

  lemma CommitKeeps(st: State, io: Io)
    requires ActorInv(st)
    ensures Good(st, Commit(st, io).st)
    ensures Commit(st, io).ok ==> Commit(st, io).st.pendingItem != 0
    ensures Commit(st, io).st.turn == st.turn && Commit(st, io).st.turnNo == st.turnNo
  {
    hide ActorInv;
    hide Evolves;
    ErrorKeeps(st, BufferEmpty);
    PanicKeeps(st);
    if st.buffer.pcm != [] && InputBuffer.Sliceable(st.buffer) {
      CommitPlaces(st, io);
      var st1 := Commit(st, io.(finalizeOk := true)).st;
      ErrorKeeps(st1, ProviderError);
      GoodTransitive(st, st1, Fatal(st1, ProviderError));
    }
  }

  lemma DeferKeeps(st: State)
    requires ActorInv(st)
    ensures Good(st, DeferTrigger(st))
    ensures Good(st, DropDeferred(st))
  {
    hide ParseAll;
    AsideKeeps(st, DeferTrigger(st));
    AsideKeeps(st, DropDeferred(st));
  }

  // The timer part of a decision.
  function Armed(st: State, d: Turns.Decision): State {
    if d.armEndOfTurn || d.armFinalWait then ArmEndOfTurn(st) else st
  }

  lemma ApplyKeeps(st: State, d: Turns.Decision, io: Io)
    requires ActorInv(Armed(st, d))
    ensures Good(Armed(st, d), ApplyDecision(st, d, io))
  {
    hide ActorInv;
    hide Evolves;
    hide Commit;
    hide StartResponse;
    var st1 := Armed(st, d);
    CommitKeeps(st1, io);
    var c := Commit(st1, io).st;
    DeferKeeps(c);
    GoodTransitive(st1, c, DeferTrigger(c));
    SelfGood(st1);
    var st2 := if d.commit then if Commit(st1, io).ok && d.deferTrigger then DeferTrigger(c) else c else st1;
    if d.trigger && st2.active.None? {
      StartResponseKeeps(st2, NO_OVERRIDES);
      GoodTransitive(st1, st2, StartResponse(st2, NO_OVERRIDES));
    }
  }

  lemma SelfGood(st: State)
    requires ActorInv(st)
    ensures Good(st, st)
  {
    hide ParseAll;
  }

  // A turn input that is no speech event and no report about a response.
  predicate Outside(input: Turns.TurnInput) {
    input.AsrFinal? || input.AsrEndOfTurn? || input.ClientCommit?
  }

  lemma StepKeeps(st: State, input: Turns.TurnInput)
    requires ActorInv(st) && Outside(input)
    ensures var (t, d) := Turns.Step(st.turn, input);
            Good(st, Armed(Stepped(st, input), d))
  {
    hide ParseAll;
    hide ResponseInv;
    hide Turns.EndsSentence;
    var (t, d) := Turns.Step(st.turn, input);
    AsideKeeps(st, Armed(Stepped(st, input), d));
  }

  lemma StepAndApplyKeeps(st: State, input: Turns.TurnInput, io: Io)
    requires ActorInv(st) && Outside(input)
    ensures Good(st, StepAndApply(st, input, io))
  {
    hide ActorInv;
    hide Evolves;
    hide Turns.Step;
    hide ApplyDecision;
    var (t, d) := Turns.Step(st.turn, input);
    StepKeeps(st, input);
    ApplyKeeps(Stepped(st, input), d, io);
    GoodTransitive(st, Armed(Stepped(st, input), d), StepAndApply(st, input, io));
  }

  // ---- audio --------------------------------------------------------------------------------------------

  // A ref is set aside for the item that the coming speech will become.
  lemma ReserveKeeps(st: State)
    requires ActorInv(st)
    ensures Good(st, ReserveSpeechItem(st))
  {
    hide ActorInv;
    hide Evolves;
    SelfGood(st);
    if st.speechItem == 0 {
      ReservedIsGood(st);
      ReservedEvolves(st);
    }
  }

  lemma ReservedIsGood(st: State)
    requires ActorInv(st)
    ensures ActorInv(st.(conv := NewRef(st.conv).0, speechItem := st.conv.next + 1))
  {
    hide ParseAll;
  }

  lemma ReservedEvolves(st: State)
    requires ActorInv(st)
    ensures Evolves(st, st.(conv := NewRef(st.conv).0, speechItem := st.conv.next + 1))
  {
    hide ParseAll;
  }

  lemma MarkStartKeeps(st: State, offsetMs: nat)
    requires ActorInv(st)
    ensures Good(st, MarkStart(st, offsetMs))
    ensures var d := Turns.Step(st.turn, Turns.VadSpeechStart).1;
            !d.commit && !d.trigger && !d.armEndOfTurn && !d.armFinalWait
  {
    hide ParseAll;
    hide ResponseInv;
    AsideKeeps(st, MarkStart(st, offsetMs));
  }

  lemma EmitOneKeeps(st: State, e: Event)
    requires ActorInv(st) && Plain(e)
    ensures Good(st, Emit(st, e))
  {
    hide ActorInv;
    hide Evolves;
    EmitKeeps(st, [e]);
  }

  lemma OnSpeechStartKeeps(st: State, offsetMs: nat, io: Io)
    requires ActorInv(st)
    ensures Good(st, OnSpeechStart(st, offsetMs, io))
  {
    hide ActorInv;
    hide Evolves;
    hide Turns.Step;
    hide Interrupt;
    hide MarkStart;
    ReserveKeeps(st);
    var st1 := ReserveSpeechItem(st);
    MarkStartKeeps(st1, offsetMs);
    var d := Turns.Step(st1.turn, Turns.VadSpeechStart).1;
    var st2 := MarkStart(st1, offsetMs);
    GoodTransitive(st, st1, st2);
    var startMs := InputBuffer.SpeechStartMs(st1.buffer, offsetMs, st1.cfg.turnDetection.prefixMs);
    var st3 := if d.emitSpeechStarted then Emit(st2, SpeechStarted(startMs, st2.speechItem)) else st2;
    EmitOneKeeps(st2, SpeechStarted(startMs, st2.speechItem));
    SelfGood(st2);
    GoodTransitive(st, st2, st3);
    var st4 := if d.interrupt then Interrupt(st3, TurnDetected) else st3;
    InterruptKeeps(st3, TurnDetected);
    SelfGood(st3);
    GoodTransitive(st, st3, st4);
    DeferKeeps(st4);
    GoodTransitive(st, st4, DropDeferred(st4));
  }

  lemma InterruptKeeps(st: State, reason: StatusReason)
    requires ActorInv(st)
    ensures Good(st, Interrupt(st, reason))
  {
    hide Evolves;
    SelfGood(st);
    if st.active.Some? { FinishKeeps(st, ResponseCancelled, reason); }
  }

  lemma MarkEndKeeps(st: State, offsetMs: nat)
    requires ActorInv(st)
    ensures Good(st, Armed(MarkEnd(st, offsetMs), Turns.Step(st.turn, Turns.VadSpeechEnd).1))
  {
    hide ParseAll;
    hide ResponseInv;
    hide Turns.Step;
    Turns.StepKeeps(st.turn, Turns.VadSpeechEnd);
    Turns.DecisionsAreCoherent(st.turn, Turns.VadSpeechEnd);
    AsideKeeps(st, Armed(MarkEnd(st, offsetMs), Turns.Step(st.turn, Turns.VadSpeechEnd).1));
  }

  lemma OnSpeechEndKeeps(st: State, offsetMs: nat, io: Io)
    requires ActorInv(st)
    ensures Good(st, OnSpeechEnd(st, offsetMs, io))
  {
    hide ActorInv;
    hide Evolves;
    hide ApplyDecision;
    hide Turns.Step;
    hide MarkEnd;
    var d := Turns.Step(st.turn, Turns.VadSpeechEnd).1;
    MarkEndKeeps(st, offsetMs);
    var st1 := MarkEnd(st, offsetMs);
    var endMs := InputBuffer.SpeechEndMs(st.buffer, offsetMs, st.cfg.turnDetection.silenceMs);
    var st2 := if d.emitSpeechStopped then Emit(st1, SpeechStopped(endMs, st1.speechItem)) else st1;
    SelfGood(Armed(st1, d));
    EmitOneKeeps(Armed(st1, d), SpeechStopped(endMs, st1.speechItem));
    assert Armed(st2, d) == if d.emitSpeechStopped then Emit(Armed(st1, d), SpeechStopped(endMs, st1.speechItem))
                            else Armed(st1, d);
    GoodTransitive(st, Armed(st1, d), Armed(st2, d));
    ApplyKeeps(st2, d, io);
    GoodTransitive(st, Armed(st2, d), OnSpeechEnd(st, offsetMs, io));
  }

  lemma {:induction false} OnVadEventsKeeps(st: State, evs: seq<Vad.VadEvent>, io: Io)
    requires ActorInv(st)
    ensures Good(st, OnVadEvents(st, evs, io))
    decreases |evs|
  {
    hide ActorInv;
    hide Evolves;
    hide OnSpeechStart;
    hide OnSpeechEnd;
    if evs == [] {
      SelfGood(st);
    } else {
      var st1 := match evs[0]
                 case SpeechStart(offset) => OnSpeechStart(st, offset, io)
                 case SpeechEnd(offset) => OnSpeechEnd(st, offset, io);
      OnSpeechStartKeeps(st, evs[0].offsetMs, io);
      OnSpeechEndKeeps(st, evs[0].offsetMs, io);
      OnVadEventsKeeps(st1, evs[1..], io);
      GoodTransitive(st, st1, OnVadEvents(st1, evs[1..], io));
    }
  }

  lemma BufferKeeps(st: State, buffer: InputBuffer.Buffer, detector: Option<Vad.Detector>)
    requires ActorInv(st)
    ensures Good(st, st.(buffer := buffer, detector := detector))
  {
    hide ParseAll;
    AsideKeeps(st, st.(buffer := buffer, detector := detector));
  }

  lemma OnAudioKeeps(st: State, pcm: Bytes, io: Io)
    requires ActorInv(st)
    ensures Good(st, OnAudio(st, pcm, io))
  {
    hide ActorInv;
    hide Evolves;
    hide OnVadEvents;
    hide Vad.Process;
    hide InputBuffer.TrimIdle;
    ErrorKeeps(st, BufferOverflow);
    var st1 := st.(buffer := InputBuffer.Append(st.buffer, pcm));
    BufferKeeps(st, st1.buffer, st.detector);
    assert st1 == st.(buffer := st1.buffer, detector := st.detector);
    ErrorKeeps(st1, ProviderError);
    GoodTransitive(st, st1, Fatal(st1, ProviderError));
    if st.detector.Some? {
      var (d, evs) := Vad.Process(st1.detector.value, pcm);
      var st2 := st1.(detector := Some(d));
      BufferKeeps(st, st1.buffer, Some(d));
      OnVadEventsKeeps(st2, evs, io);
      var st3 := OnVadEvents(st2, evs, io);
      GoodTransitive(st, st2, st3);
      var trimmed := InputBuffer.TrimIdle(st3.buffer, st3.cfg.turnDetection.prefixMs + FRAME_MS);
      BufferKeeps(st3, trimmed, st3.detector);
      GoodTransitive(st, st3, st3.(buffer := trimmed, detector := st3.detector));
    }
  }

  // ---- transcripts --------------------------------------------------------------------------------------

  // The text and status of a user item change; nothing else does.
  ghost predicate Retexted(st: State, st': State, it: Item) {
    && it.view.ref in st.conv.index && it.view.role.UserRole? && it.segments == []
    && st.conv.index[it.view.ref].view.role.UserRole?
    && it.view.content == st.conv.index[it.view.ref].view.content
    && st'.conv == Update(st.conv, it)
    && st'.active == st.active && st'.activeGen == st.activeGen
    && st'.nextResp == st.nextResp && st'.launches == st.launches && st'.asrWait == st.asrWait
    && st'.speechItem == st.speechItem
    && st.trace <= st'.trace && ParseAll(st'.trace) == ParseAll(st.trace)
    && (st'.pendingItem == 0 || (st'.pendingItem == st.pendingItem && !it.view.transcriptDone))
  }

  lemma RetextKeeps(st: State, st': State, it: Item)
    requires ActorInv(st) && Retexted(st, st', it) && TimerInv(st')
    ensures Good(st, st')
  {
    hide ParseAll;
    UpdateKeeps(st.conv, it);
  }

  lemma PendingTextKeeps(st: State, text: Text)
    requires ActorInv(st)
    ensures Good(st, WithPendingText(st, text))
  {
    hide ParseAll;
    SelfGood(st);
    if HasPending(st) {
      var it := st.conv.index[st.pendingItem];
      RetextKeeps(st, WithPendingText(st, text), it.(view := it.view.(text := text)));
    }
  }

  lemma TranscribedKeeps(st: State, text: Text, delta: Text)
    requires ActorInv(st) && HasPending(st)
    ensures Good(st, Transcribed(st, text, delta))
  {
    hide ActorInv;
    hide Evolves;
    hide Retexted;
    hide Transcribed;
    var it := st.conv.index[st.pendingItem];
    TranscribedIsRetexted(st, text, delta);
    TranscribedTimers(st, text, delta);
    RetextKeeps(st, Transcribed(st, text, delta),
                it.(view := it.view.(text := text, transcriptDone := true, status := Completed)));
  }

  lemma TranscribedTimers(st: State, text: Text, delta: Text)
    requires ActorInv(st) && HasPending(st)
    ensures TimerInv(Transcribed(st, text, delta))
  {
    hide ResponseInv;
  }

  lemma TranscribedIsRetexted(st: State, text: Text, delta: Text)
    requires ActorInv(st) && HasPending(st)
    ensures var it := st.conv.index[st.pendingItem];
            Retexted(st, Transcribed(st, text, delta),
                     it.(view := it.view.(text := text, transcriptDone := true, status := Completed)))
  {
    hide ParseAll;
    hide AdvanceAll;
    hide TimerInv;
    var st' := Transcribed(st, text, delta);
    var es := st'.trace[|st.trace|..];
    assert st'.trace == st.trace + es;
    ParseAppend(st.trace, es);
    PlainEvents(ParseAll(st.trace), es);
  }

  // A response that was waiting gets its pipeline.
  lemma ReleaseKeeps(st: State)
    requires ActorInv(st) && st.active.Some? && st.active.value.awaiting
    ensures Good(st, StartPipeline(StopAsrWait(st)))
    ensures StartPipeline(StopAsrWait(st)).deferItem == st.deferItem
  {
    hide ParseAll;
    hide StartPipeline;
    var st1 := StopAsrWait(st);
    assert st1.(asrWait := true) == st;
    StoppedIsStartable(st);
    StartedIsGood(st, st1);
    StartPipelineAside(st1);
  }

  lemma StartPipelineAside(st: State)
    requires st.active.Some?
    ensures StartPipeline(st).deferItem == st.deferItem
  {
  }

  lemma StoppedIsStartable(st: State)
    requires ActorInv(st) && st.active.Some? && st.active.value.awaiting
    ensures Startable(StopAsrWait(st)) && Evolves(st, StopAsrWait(st))
  {
    hide ParseAll;
    assert StopAsrWait(st).(asrWait := true) == st;
  }

  lemma ResolveKeeps(st: State, ref: ItemRef, text: Text)
    requires ActorInv(st)
    ensures Good(st, ResolveDeferred(st, ref, text))
  {
    hide ActorInv;
    hide Evolves;
    hide StartResponse;
    hide Blank;
    SelfGood(st);
    DeferKeeps(st);
    var st1 := DropDeferred(st);
    if st1.active.None? {
      StartResponseKeeps(st1, NO_OVERRIDES);
      GoodTransitive(st, st1, StartResponse(st1, NO_OVERRIDES));
    }
  }

  lemma CompletePendingKeeps(st: State, text: Text, delta: Text)
    requires ActorInv(st) && HasPending(st)
    ensures Good(st, CompletePending(st, text, delta))
  {
    hide ActorInv;
    hide Evolves;
    hide ResolveDeferred;
    hide StartPipeline;
    var ref := st.pendingItem;
    var st1 := Transcribed(st, text, delta);
    TranscribedKeeps(st, text, delta);
    SelfGood(st1);
    var release := st1.active.Some? && st1.active.value.awaiting && st1.active.value.dependsOn == ref;
    if release { ReleaseKeeps(st1); }
    var st2 := if release then StartPipeline(StopAsrWait(st1)) else st1;
    GoodTransitive(st, st1, st2);
    ResolveKeeps(st2, ref, text);
    GoodTransitive(st, st2, ResolveDeferred(st2, ref, text));
  }

  lemma TextAsideKeeps(st: State, acc: Text, partial: Text)
    requires ActorInv(st)
    ensures Good(st, st.(transcriptAcc := acc, partial := partial))
  {
    hide ParseAll;
    AsideKeeps(st, st.(transcriptAcc := acc, partial := partial));
  }

  lemma OnAsrKeeps(st: State, ev: AsrEvent, io: Io)
    requires ActorInv(st)
    ensures Good(st, OnAsr(st, ev, io))
  {
    hide ActorInv;
    hide Evolves;
    hide StepAndApply;
    hide CompletePending;
    match ev
    case AsrPartial(text) => TextAsideKeeps(st, st.transcriptAcc, text);
    case AsrError => ErrorKeeps(st, ProviderError);
    case AsrFinal(text) =>
      var st0 := st.(partial := []);
      TextAsideKeeps(st, st.transcriptAcc, []);
      var joined := JoinTranscript(st0.transcriptAcc, text);
      var st1 := if HasPending(st0) then CompletePending(st0, joined, text) else st0.(transcriptAcc := joined);
      if HasPending(st0) { CompletePendingKeeps(st0, joined, text); }
      TextAsideKeeps(st0, joined, []);
      GoodTransitive(st, st0, st1);
      StepAndApplyKeeps(st1, Turns.AsrFinal(text), io);
      GoodTransitive(st, st1, StepAndApply(st1, Turns.AsrFinal(text), io));
    case AsrEndOfTurn =>
      SelfGood(st);
      var st1 := if HasPending(st) then CompletePending(st, st.transcriptAcc, []) else st;
      if HasPending(st) { CompletePendingKeeps(st, st.transcriptAcc, []); }
      StepAndApplyKeeps(st1, Turns.AsrEndOfTurn, io);
      GoodTransitive(st, st1, StepAndApply(st1, Turns.AsrEndOfTurn, io));
  }

  // ---- timer expiry ---------------------------------------------------------------------------------------

  lemma FailKeeps(st: State, code: ErrorCode)
    requires ActorInv(st) && st.active.Some?
    ensures Good(st, FailResponse(st, code))
  {
    hide Evolves;
    hide ResponseInv;
    ErrorKeeps(st, code);
    FinishKeeps(EmitError(st, code), ResponseFailed, NoReason);
    GoodTransitive(st, EmitError(st, code), FailResponse(st, code));
  }

  // Finishing does not depend on the timer that brought it about.
  lemma FinishIgnoresWait(st: State, code: ErrorCode)
    requires st.active.Some? && st.active.value.status.ResponseInProgress?
    ensures FailResponse(StopAsrWait(st), code) == FailResponse(st, code)
  {
    hide Turns.Step;
  }

  lemma OnTranscriptTimeoutKeeps(st: State)
    requires ActorInv(st) && st.asrWait
    ensures Good(st, OnTranscriptTimeout(st))
  {
    hide Evolves;
    hide FailResponse;
    hide StartPipeline;
    hide ParseAll;
    var best := JoinTranscript(st.transcriptAcc, st.partial);
    FailKeeps(st, TranscriptTimeout);
    FinishIgnoresWait(st, TranscriptTimeout);
    PendingTextKeeps(st, best);
    var st1 := WithPendingText(st, best);
    ReleaseKeeps(st1);
    assert StopAsrWait(WithPendingText(st, best)) == WithPendingText(StopAsrWait(st), best);
    GoodTransitive(st, st1, StartPipeline(StopAsrWait(st1)));
  }

  // With the timer spent, a pending turn ends: nothing is left waiting.
  lemma EndOfTurnArmed(st: State)
    requires ActorInv(st)
    ensures var st1 := DisarmEndOfTurn(st);
            var (t, d) := Turns.Step(st1.turn, Turns.AsrEndOfTurn);
            Good(st, Armed(Stepped(st1, Turns.AsrEndOfTurn), d))
  {
    hide ParseAll;
    hide ResponseInv;
    hide Turns.EndsSentence;
    var st1 := DisarmEndOfTurn(st);
    var (t, d) := Turns.Step(st1.turn, Turns.AsrEndOfTurn);
    AsideKeeps(st, Armed(Stepped(st1, Turns.AsrEndOfTurn), d));
  }

  lemma OnEndOfTurnTimerKeeps(st: State, io: Io)
    requires ActorInv(st)
    ensures Good(st, OnEndOfTurnTimer(st, io))
  {
    hide ActorInv;
    hide Evolves;
    hide Turns.Step;
    hide ApplyDecision;
    EndOfTurnArmed(st);
    var st1 := DisarmEndOfTurn(st);
    var (t, d) := Turns.Step(st1.turn, Turns.AsrEndOfTurn);
    ApplyKeeps(Stepped(st1, Turns.AsrEndOfTurn), d, io);
    GoodTransitive(st, Armed(Stepped(st1, Turns.AsrEndOfTurn), d), OnEndOfTurnTimer(st, io));
  }

  lemma OnDeferredTimeoutKeeps(st: State)
    requires ActorInv(st)
    ensures Good(st, OnDeferredTimeout(st))
  {
    hide ActorInv;
    hide Evolves;
    hide StartResponse;
    hide StartPipeline;
    hide Blank;
    DeferKeeps(st);
    var st1 := DropDeferred(st);
    var best := JoinTranscript(st1.transcriptAcc, st1.partial);
    PendingTextKeeps(st1, best);
    var st2 := WithPendingText(st1, best);
    GoodTransitive(st, st1, st2);
    if st2.active.None? {
      StartResponseKeeps(st2, NO_OVERRIDES);
      var st3 := StartResponse(st2, NO_OVERRIDES);
      GoodTransitive(st, st2, st3);
      if st3.active.Some? && st3.active.value.awaiting {
        ReleaseKeeps(st3);
        GoodTransitive(st, st3, StartPipeline(StopAsrWait(st3)));
      }
    }
  }

  // ---- commands ---------------------------------------------------------------------------------------------

  lemma OnUpdateSessionKeeps(st: State, p: SessionPatch)
    requires ActorInv(st)
    ensures Good(st, OnUpdateSession(st, p))
  {
    hide ActorInv;
    hide Evolves;
    hide ApplyTurnDetection;
    ErrorKeeps(st, VoiceLocked);
    ErrorKeeps(st, InvalidSession);
    var cfg := Config(Or(p.turnDetection, st.cfg.turnDetection), Or(p.transcription, st.cfg.transcription),
                      Or(p.textOnly, st.cfg.textOnly), Or(p.voice, st.cfg.voice));
    ConfiguredKeeps(st, cfg);
    var st1 := st.(cfg := cfg);
    var st2 := if p.turnDetection.Some? then ApplyTurnDetection(st1) else st1;
    EmitOneKeeps(st2, SessionUpdated);
    GoodTransitive(st, st2, Emit(st2, SessionUpdated));
  }

  lemma ConfiguredKeeps(st: State, cfg: Config)
    requires ActorInv(st)
    ensures Good(st, st.(cfg := cfg)) && Good(st, ApplyTurnDetection(st.(cfg := cfg)))
  {
    hide Evolves;
    hide ResponseInv;
    AsideKeeps(st, st.(cfg := cfg));
    AsideKeeps(st, ApplyTurnDetection(st.(cfg := cfg)));
  }

  lemma OnClearAudioKeeps(st: State)
    requires ActorInv(st)
    ensures Good(st, OnClearAudio(st))
  {
    hide Evolves;
    hide ResponseInv;
    var detector := if st.detector.Some? then Some(Vad.Reset(st.detector.value)) else None;
    var st1 := st.(buffer := InputBuffer.Clear(st.buffer), detector := detector, turn := Turns.ResetTurn(st.turn));
    var st2 := DisarmEndOfTurn(st1).(speechItem := 0);
    AsideKeeps(st, st2);
    EmitOneKeeps(st2, AudioBufferCleared);
    GoodTransitive(st, st2, Emit(st2, AudioBufferCleared));
  }

  // A refused insertion may still have used up a ref.
  lemma RefusedKeeps(st: State, c: Conversation)
    requires ActorInv(st) && c.items == st.conv.items && c.index == st.conv.index && c.next >= st.conv.next
    ensures Good(st, st.(conv := c))
  {
    hide ParseAll;
  }

  lemma OnCreateItemKeeps(st: State, spec: ItemSpec, place: Place)
    requires ActorInv(st)
    ensures Good(st, OnCreateItem(st, spec, place))
  {
    hide Advance;
    hide ParseAll;
    hide Evolves;
    hide Actor.Answered;
    ErrorKeeps(st, InvalidItem);
    var it := ClientItem(st.conv, spec);
    if it.Some? {
      InsertKeeps(st.conv, it.value, place);
      InsertPlaces(st.conv, it.value, place);
      match Insert(st.conv, it.value, place)
      case NotFound(c) =>
        RefusedKeeps(st, c);
        ErrorKeeps(st.(conv := c), ItemNotFound);
        GoodTransitive(st, st.(conv := c), EmitError(st.(conv := c), ItemNotFound));
      case Added(c, added, previous) =>
        AddedIsPut(st, it.value, place);
    }
  }

  lemma AddedIsPut(st: State, it: Item, place: Place)
    requires ActorInv(st) && it.view.ref == 0 && it.segments == [] && !it.view.role.ToolRole? && !Spoken(it)
    requires Insert(st.conv, it, place).Added?
    ensures var added := Insert(st.conv, it, place);
            Good(st, EmitAll(st.(conv := added.conv),
                             [ItemAdded(added.item.view, added.previous), ItemDone(added.item.view)]))
  {
    hide Advance;
    hide ParseAll;
    hide InsertAt;
    InsertKeeps(st.conv, it, place);
    InsertPlaces(st.conv, it, place);
    var added := Insert(st.conv, it, place);
    var es := [ItemAdded(added.item.view, added.previous), ItemDone(added.item.view)];
    ParseAppend(st.trace, es);
    PlainEvents(ParseAll(st.trace), es);
    PutKeeps(st, EmitAll(st.(conv := added.conv), es), added.item);
  }

  // The state without item ref.
  function Without(st: State, ref: ItemRef): State {
    var st1 := st.(conv := Remove(st.conv, ref));
    if st1.pendingItem == ref then st1.(pendingItem := 0) else st1
  }

  lemma WithoutItems(st: State, ref: ItemRef)
    requires ItemsInv(st)
    ensures ItemsInv(Without(st, ref)) && ItemsKept(st, Without(st, ref))
  {
    hide Remove;
    hide ConvInv;
    hide WellMade;
    RemoveKeeps(st.conv, ref);
    RemoveNext(st.conv, ref);
    OthersStay(st, Without(st, ref));
  }

  lemma OthersStay(st: State, st': State)
    requires forall ref :: ref in st'.conv.index ==> ref in st.conv.index && st'.conv.index[ref] == st.conv.index[ref]
    ensures ItemsKept(st, st')
  {
    hide WasTruncated;
  }

  // An item other than the response's own is removed.
  lemma RemovedKeeps(st: State, ref: ItemRef)
    requires ActorInv(st) && (st.active.Some? ==> st.active.value.item != ref)
    ensures Good(st, Without(st, ref))
  {
    hide ResponseInv;
    hide TimerInv;
    hide Talks;
    hide ItemsKept;
    hide Without;
    assert ItemsInv(st) by { ItemsHold(st); }
    WithoutItems(st, ref);
    RemovedResponse(st, ref);
    RemovedAside(st, ref);
  }

  lemma ItemsHold(st: State)
    requires ResponseInv(st)
    ensures ItemsInv(st)
  {
    hide ItemsInv;
  }

  lemma RemovedResponse(st: State, ref: ItemRef)
    requires ResponseInv(st) && (st.active.Some? ==> st.active.value.item != ref)
    requires ItemsInv(Without(st, ref))
    ensures ResponseInv(Without(st, ref))
  {
    hide ParseAll;
    hide Remove;
    hide ItemsInv;
    hide ItemTold;
    RemoveIndex(st.conv, ref);
  }

  lemma RemovedAside(st: State, ref: ItemRef)
    requires ActorInv(st) && (st.active.Some? ==> st.active.value.item != ref)
    ensures TimerInv(Without(st, ref)) && Talks(st, Without(st, ref)) && st.trace <= Without(st, ref).trace
  {
    hide ParseAll;
    hide Remove;
    hide ItemsInv;
    hide ItemTold;
    RemoveIndex(st.conv, ref);
  }

  lemma RemoveIndex(c: Conversation, ref: ItemRef)
    ensures forall x :: x != ref && x in c.index ==> x in Remove(c, ref).index && Remove(c, ref).index[x] == c.index[x]
  {
  }

  lemma RemoveNext(c: Conversation, ref: ItemRef)
    ensures Remove(c, ref).next == c.next
  {
  }

  lemma OnDeleteItemKeeps(st: State, ref: ItemRef)
    requires ActorInv(st)
    ensures Good(st, OnDeleteItem(st, ref))
  {
    hide ActorInv;
    hide Evolves;
    hide Remove;
    ErrorKeeps(st, InvalidItem);
    ErrorKeeps(st, ItemNotFound);
    if !(st.active.Some? && st.active.value.item == ref) && ref in st.conv.index {
      RemovedKeeps(st, ref);
      EmitOneKeeps(Without(st, ref), ItemDeleted(ref));
      GoodTransitive(st, Without(st, ref), Emit(Without(st, ref), ItemDeleted(ref)));
    }
  }

  // An assistant item is cut short and the client told.
  lemma CutKeeps(st: State, it: Item, audioMs: int)
    requires ActorInv(st) && it.view.ref in st.conv.index
    requires var was := st.conv.index[it.view.ref];
             && was.view.role.AssistantRole? && it.view.role.AssistantRole?
             && it.view.content == was.view.content && it.segments == was.segments && it.alignment == was.alignment
    ensures Good(st, Emit(st.(conv := Update(st.conv, it)), ItemTruncated(it.view.ref, audioMs)))
  {
    hide Advance;
    hide ParseAll;
    var e := ItemTruncated(it.view.ref, audioMs);
    var st' := Emit(st.(conv := Update(st.conv, it)), e);
    ParseSnoc(st.trace, e);
    TruncatedEvent(ParseAll(st.trace), it.view.ref, audioMs);
    CutLeaves(st, st', it);
    CutEvolves(st, st', it);
  }

  // The client has been told that it was cut short.
  ghost predicate CutShort(st: State, st': State, it: Item) {
    && it.view.ref in st.conv.index
    && (var was := st.conv.index[it.view.ref];
        && was.view.role.AssistantRole? && it.view.role.AssistantRole?
        && it.view.content == was.view.content && it.segments == was.segments && it.alignment == was.alignment)
    && (exists audioMs :: st' == Emit(st.(conv := Update(st.conv, it)), ItemTruncated(it.view.ref, audioMs)))
    && ParseAll(st'.trace)
       == var p := ParseAll(st.trace);
          if p.Open? && p.run.msg != 0 && it.view.ref == p.run.msg then Open(p.run.(truncated := true)) else p
  }

  lemma CutLeaves(st: State, st': State, it: Item)
    requires ActorInv(st) && CutShort(st, st', it)
    ensures ActorInv(st')
  {
    hide ParseAll;
    UpdateKeeps(st.conv, it);
  }

  lemma CutEvolves(st: State, st': State, it: Item)
    requires ActorInv(st) && CutShort(st, st', it)
    ensures Evolves(st, st')
  {
    hide ParseAll;
    hide TimerInv;
    hide ItemTold;
    assert st'.trace[|st.trace|].ItemTruncated? && st'.trace[|st.trace|].item == it.view.ref;
    assert WasTruncated(st'.trace, it.view.ref);
  }

  lemma OnTruncateItemKeeps(st: State, ref: ItemRef, contentIndex: int, audioEndMs: int)
    requires ActorInv(st)
    ensures Good(st, OnTruncateItem(st, ref, contentIndex, audioEndMs))
  {
    hide Evolves;
    hide ParseAll;
    hide Truncation.TrimText;
    ErrorKeeps(st, ItemNotFound);
    ErrorKeeps(st, ItemNotTruncatable);
    ErrorKeeps(st, InvalidItem);
    ErrorKeeps(st, TruncateOutOfRange);
    PanicKeeps(st);
    if ref in st.conv.index {
      var it := st.conv.index[ref];
      var cut := MsToBytes(audioEndMs);
      var trim := Truncation.TrimText(it.view.text, it.segments, it.alignment, cut, it.audioBytes);
      if trim.Trimmed? && it.view.role.AssistantRole? && 0 <= cut {
        var it1 := it.(view := it.view.(text := trim.text));
        var it2 := if cut < it.audioBytes then it1.(audioBytes := cut, view := it1.view.(audioMs := audioEndMs))
                   else it1;
        CutKeeps(st, it2, audioEndMs);
      }
    }
  }

  lemma PanicKeeps(st: State)
    requires ActorInv(st)
    ensures Good(st, st.(panicked := true))
    ensures Good(st, st.(cancelled := true))
  {
    hide ParseAll;
    AsideKeeps(st, st.(panicked := true));
    AsideKeeps(st, st.(cancelled := true));
  }

  lemma OnCommandKeeps(st: State, cmd: Command, io: Io)
    requires ActorInv(st)
    ensures Good(st, OnCommand(st, cmd, io))
  {
    hide ActorInv;
    hide Evolves;
    hide OnUpdateSession;
    hide OnClearAudio;
    hide OnCreateItem;
    hide OnDeleteItem;
    hide OnTruncateItem;
    hide StepAndApply;
    hide StartResponse;
    hide Interrupt;
    match cmd
    case UpdateSession(patch) => OnUpdateSessionKeeps(st, patch);
    case CommitAudio => StepAndApplyKeeps(st, Turns.ClientCommit, io);
    case ClearAudio => OnClearAudioKeeps(st);
    case CreateItem(spec, place) => OnCreateItemKeeps(st, spec, place);
    case DeleteItem(ref) => OnDeleteItemKeeps(st, ref);
    case TruncateItem(ref, contentIndex, audioEndMs) => OnTruncateItemKeeps(st, ref, contentIndex, audioEndMs);
    case CreateResponse(ov) =>
      ErrorKeeps(st, ResponseAlreadyActive);
      if st.active.None? {
        assert st.(turn := st.turn) == st;
        StartResponseKeeps(st, ov);
      }
    case CancelResponse(resp) =>
      ErrorKeeps(st, CancelNotActive);
      InterruptKeeps(st, ClientCancelled);
    case CloseSession => PanicKeeps(st);
  }

  // The end of the session closes the open response and leaves nothing armed.
  lemma CleanupCloses(st: State)
    requires ActorInv(st)
    ensures ResponseInv(Cleanup(st)) && Evolves(st, Cleanup(st))
    ensures Cleanup(st).active.None? && !Cleanup(st).asrWait && Cleanup(st).eot.None? && !Cleanup(st).deferWait
  {
    hide Evolves;
    hide FinishResponse;
    SelfGood(st);
    if st.active.Some? { FinishKeeps(st, ResponseCancelled, NoReason); }
    var st1 := if st.active.Some? then FinishResponse(st, ResponseCancelled, NoReason) else st;
    CleanupTail(st1);
    var st2 := DropDeferred(DisarmEndOfTurn(StopAsrWait(st1))).(cancelled := true);
    EvolvesTransitive(st, st1, Emit(st2, SessionClosed));
  }

  lemma CleanupTail(st: State)
    requires ResponseInv(st) && st.active.None?
    ensures var st2 := DropDeferred(DisarmEndOfTurn(StopAsrWait(st))).(cancelled := true);
            ResponseInv(Emit(st2, SessionClosed)) && Evolves(st, Emit(st2, SessionClosed))
  {
    hide Advance;
    hide ParseAll;
    ParseSnoc(st.trace, SessionClosed);
    PlainEvent(ParseAll(st.trace), SessionClosed);
  }
}
