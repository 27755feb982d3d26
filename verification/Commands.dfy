// What each client command makes of the session, and what it refuses
// (internal/session/session.go:544-770).
module Commands {
  import opened Audio
  import opened Utf8
  import opened Conversations
  import opened Events
  import opened Grammar
  import opened Actor
  import opened ActorInvariants
  import opened Pipelines
  import Answers
  import InputBuffer
  import Truncation
  import Turns
  import Vad

  // ---- items -------------------------------------------------------------------------------------------

  // What a client may create: a message that says something, of a role it may speak
  // in, or the one output of a call there is.
  ghost predicate MayCreate(c: Conversation, spec: ItemSpec) {
    if spec.toolOutput then
      && spec.callItem in c.index && c.index[spec.callItem].view.content.ToolCallContent?
      && forall ref :: ref in c.items && ref in c.index && c.index[ref].view.content.ToolOutputContent? ==>
           c.index[ref].view.callId != c.index[spec.callItem].view.callId
    else
      (spec.role.UserRole? || spec.role.AssistantRole? || spec.role.SystemRole?) && spec.text != []
  }

  // The item as the client sees it: complete, in its own words; an output answers its
  // call by id.
  ghost predicate AsAsked(c: Conversation, spec: ItemSpec, v: ItemView) {
    && v.status.Completed? && v.text == spec.text && v.audioMs == 0 && v.transcriptDone
    && (if spec.toolOutput then
          && v.content.ToolOutputContent? && v.role.NoRole?
          && spec.callItem in c.index
          && v.callId == c.index[spec.callItem].view.callId && v.name == c.index[spec.callItem].view.name
        else
          v.content.TextContent? && v.role == spec.role && v.callId == [] && v.name == [])
  }

  // A client's item is created, where it was asked to go and no other way, or refused
  // with one error that says whether it or its place is at fault.
  lemma CreateItemTells(st: State, spec: ItemSpec, place: Place, io: Io)
    requires ActorInv(st)
    ensures var st' := OnCommand(st, CreateItem(spec, place), io);
            var found := !place.After? || place.previous in st.conv.index;
            if !MayCreate(st.conv, spec) then st' == Emit(st, ErrorEvent(InvalidItem, false))
            else if !found then
              st' == Emit(st.(conv := st.conv.(next := st.conv.next + 1)), ErrorEvent(ItemNotFound, false))
            else
              var ref := st.conv.next + 1;
              && ref in st'.conv.index && st'.conv.index == st.conv.index[ref := st'.conv.index[ref]]
              && AsAsked(st.conv, spec, st'.conv.index[ref].view) && st'.conv.index[ref].view.ref == ref
              && st' == st.(conv := st'.conv, trace := st'.trace)
              && exists previous :: StandsBehind(st'.conv.items, ref, previous)
                   && (place.AtRoot? ==> previous == 0 && st'.conv.items == [ref] + st.conv.items)
                   && (place.AtEnd? ==> st'.conv.items == st.conv.items + [ref])
                   && (place.After? ==> previous == place.previous
                                        && PutBehind(st.conv.items, st'.conv.items, ref, previous))
                   && st'.trace == st.trace + [ItemAdded(st'.conv.index[ref].view, previous),
                                               ItemDone(st'.conv.index[ref].view)]
  {
    hide ActorInv;
    hide Insert;
    ListAgrees(st);
    ClientItemTells(st.conv, spec);
    var it := ClientItem(st.conv, spec);
    if it.Some? {
      InsertPlaces(st.conv, it.value, place);
      RefusedWhere(st.conv, it.value, place);
    }
  }

  lemma RefusedWhere(c: Conversation, it: Item, place: Place)
    ensures Insert(c, it, place).NotFound? <==> place.After? && place.previous !in c.index
  {
  }

  lemma ListAgrees(st: State)
    requires ActorInv(st)
    ensures ConvInv(st.conv)
  {
    hide ParseAll;
    hide TimerInv;
  }

  lemma ClientItemTells(c: Conversation, spec: ItemSpec)
    requires ConvInv(c)
    ensures ClientItem(c, spec).Some? <==> MayCreate(c, spec)
    ensures ClientItem(c, spec).Some? ==>
              var it := ClientItem(c, spec).value;
              AsAsked(c, spec, it.view) && it.view.ref == 0 && it.segments == [] && it.alignment == []
              && it.audioBytes == 0
  {
    if spec.toolOutput && spec.callItem in c.index && c.index[spec.callItem].view.content.ToolCallContent? {
      AnsweredMeans(c, c.index[spec.callItem].view.callId);
    }
  }

  lemma AnsweredMeans(c: Conversation, callId: Text)
    ensures Actor.Answered(c, callId) <==>
              exists ref :: ref in c.items && ref in c.index && c.index[ref].view.content.ToolOutputContent?
                            && c.index[ref].view.callId == callId
  {
    if exists ref :: ref in c.items && ref in c.index && c.index[ref].view.content.ToolOutputContent?
                     && c.index[ref].view.callId == callId
    {
      var ref :| ref in c.items && ref in c.index && c.index[ref].view.content.ToolOutputContent?
                 && c.index[ref].view.callId == callId;
      assert c.items[IndexOf(c.items, ref)] == ref;
    }
  }

  // An item is deleted, unless it is not there or a response is being written to it; a
  // transcript that was still to come for it is no longer waited for.
  ghost predicate DeletionTold(st: State, st': State, ref: ItemRef) {
    if st.active.Some? && st.active.value.item == ref then st' == Emit(st, ErrorEvent(InvalidItem, false))
    else if ref !in st.conv.index then st' == Emit(st, ErrorEvent(ItemNotFound, false))
    else
      && st'.conv.index == st.conv.index - {ref} && ref !in st'.conv.items
      && (exists before, after :: st.conv.items == before + [ref] + after && st'.conv.items == before + after)
      && st'.trace == st.trace + [ItemDeleted(ref)]
      && st'.pendingItem == (if st.pendingItem == ref then 0 else st.pendingItem)
      && st' == st.(conv := st'.conv, pendingItem := st'.pendingItem, trace := st'.trace)
  }

  lemma DeleteItemTells(st: State, ref: ItemRef, io: Io)
    requires ActorInv(st)
    ensures DeletionTold(st, OnCommand(st, DeleteItem(ref), io), ref)
  {
    hide ActorInv;
    hide OnDeleteItem;
    hide DeletionTold;
    if ref in st.conv.index { RemovalTells(st, ref); } else { NothingRemoved(st, ref); }
  }

  lemma NothingRemoved(st: State, ref: ItemRef)
    requires ref !in st.conv.index
    ensures DeletionTold(st, OnDeleteItem(st, ref), ref)
  {
  }

  // The state without item ref, as the handler leaves it.
  lemma RemovalUnfolds(st: State, ref: ItemRef)
    requires ref in st.conv.index && !(st.active.Some? && st.active.value.item == ref)
    ensures OnDeleteItem(st, ref)
            == st.(conv := Remove(st.conv, ref), pendingItem := if st.pendingItem == ref then 0 else st.pendingItem,
                   trace := st.trace + [ItemDeleted(ref)])
  {
    hide Remove;
  }

  lemma RemovesOne(c: Conversation, ref: ItemRef)
    requires ConvInv(c) && ref in c.index
    ensures var c' := Remove(c, ref);
            && c'.index == c.index - {ref} && ref !in c'.items
            && (exists before, after :: c.items == before + [ref] + after && c'.items == before + after)
  {
    hide Remove;
    RemoveKeeps(c, ref);
    var k := IndexOf(c.items, ref);
    hide ConvInv;
    var before, after := c.items[..k], c.items[k + 1..];
    assert c.items == before + [ref] + after;
    RemoveCutsOut(c, before, ref, after);
  }

  lemma RemovalTells(st: State, ref: ItemRef)
    requires ActorInv(st) && ref in st.conv.index
    ensures DeletionTold(st, OnDeleteItem(st, ref), ref)
  {
    hide ActorInv;
    hide Remove;
    if st.active.Some? && st.active.value.item == ref {
    } else {
      hide OnDeleteItem;
      ListAgrees(st);
      RemovalUnfolds(st, ref);
      RemovesOne(st.conv, ref);
    }
  }

  // An item is cut short where the client says it stopped listening: its audio ends
  // there, its text is trimmed to it, and nothing else changes.
  ghost predicate CutTold(st: State, st': State, ref: ItemRef, audioEndMs: int)
    requires ref in st.conv.index && 0 <= audioEndMs
  {
    var it := st.conv.index[ref];
    match Truncation.TrimText(it.view.text, it.segments, it.alignment, 48 * audioEndMs, it.audioBytes)
    case OutOfRange => st'.panicked
    case Trimmed(text) =>
      var cut := it.(audioBytes := 48 * audioEndMs,
                     view := it.view.(text := text,
                                      audioMs := if 48 * audioEndMs < it.audioBytes then audioEndMs
                                        else it.view.audioMs));
      st' == st.(conv := st.conv.(index := st.conv.index[ref := cut]),
                 trace := st.trace + [ItemTruncated(ref, audioEndMs)])
  }

  // Only an assistant's spoken item can be cut, and only inside its audio.
  lemma TruncateItemTells(st: State, ref: ItemRef, contentIndex: int, audioEndMs: int, io: Io)
    requires ActorInv(st)
    ensures var st' := OnCommand(st, TruncateItem(ref, contentIndex, audioEndMs), io);
            if ref !in st.conv.index then st' == Emit(st, ErrorEvent(ItemNotFound, false))
            else
              var it := st.conv.index[ref];
              if !(it.view.role.AssistantRole? && it.view.content.AudioContent?) then
                st' == Emit(st, ErrorEvent(ItemNotTruncatable, false))
              else if contentIndex != 0 then st' == Emit(st, ErrorEvent(InvalidItem, false))
              else if audioEndMs < 0 || 48 * audioEndMs > it.audioBytes then
                st' == Emit(st, ErrorEvent(TruncateOutOfRange, false))
              else CutTold(st, st', ref, audioEndMs)
  {
    hide ActorInv;
    hide Truncation.TrimText;
    ListAgrees(st);
  }

  // ---- settings --------------------------------------------------------------------------------------------

  // Settings that were given replace the old ones, the others stay.
  predicate Patched(cfg: Config, cfg': Config, p: SessionPatch) {
    && cfg'.turnDetection == (if p.turnDetection.Some? then p.turnDetection.value else cfg.turnDetection)
    && cfg'.transcription == (if p.transcription.Some? then p.transcription.value else cfg.transcription)
    && cfg'.textOnly == (if p.textOnly.Some? then p.textOnly.value else cfg.textOnly)
    && cfg'.voice == (if p.voice.Some? then p.voice.value else cfg.voice)
  }

  // New turn detection starts listening afresh, with whatever response there is still
  // active.
  ghost predicate ListensAfresh(st: State, st': State, td: Turns.TurnDetection) {
    && st' == st.(cfg := st'.cfg, trace := st'.trace, turn := st'.turn, detector := st'.detector, eot := None,
                  speechItem := 0)
    && st'.turn.mode == td.mode && st'.turn.responseActive == st.turn.responseActive
    && !st'.turn.speaking && !st'.turn.pendingEot && !st'.turn.finalPending
    && (if td.mode.Manual? then st'.detector.None?
        else
          && st'.turn.createResponse == td.createResponse && st'.turn.interruptResponse == td.interruptResponse
          && st'.detector == Some(Vad.NewDetector(td.threshold, td.silenceMs)))
  }

  // An update is taken whole or not at all: another voice is refused once there has
  // been audio, and so is what is not valid; and responses are left alone.
  lemma UpdateSessionTells(st: State, p: SessionPatch, io: Io)
    ensures var st' := OnCommand(st, UpdateSession(p), io);
            if p.voice.Some? && p.voice.value != st.cfg.voice && st.audioEmitted then
              st' == Emit(st, ErrorEvent(VoiceLocked, false))
            else if !p.valid then st' == Emit(st, ErrorEvent(InvalidSession, false))
            else UpdateTold(st, st', p)
  {
    hide UpdateTold;
    hide OnUpdateSession;
    UpdateUnfolds(st, p);
  }

  ghost predicate UpdateTold(st: State, st': State, p: SessionPatch) {
    && Patched(st.cfg, st'.cfg, p) && st'.trace == st.trace + [SessionUpdated]
    && if p.turnDetection.Some? then ListensAfresh(st, st', p.turnDetection.value)
       else st' == st.(cfg := st'.cfg, trace := st'.trace)
  }

  lemma UpdateUnfolds(st: State, p: SessionPatch)
    ensures var st' := OnUpdateSession(st, p);
            if p.voice.Some? && p.voice.value != st.cfg.voice && st.audioEmitted then
              st' == Emit(st, ErrorEvent(VoiceLocked, false))
            else if !p.valid then st' == Emit(st, ErrorEvent(InvalidSession, false))
            else UpdateTold(st, st', p)
  {
    hide ApplyTurnDetection;
    hide UpdateTold;
    var cfg := Config(Or(p.turnDetection, st.cfg.turnDetection), Or(p.transcription, st.cfg.transcription),
                      Or(p.textOnly, st.cfg.textOnly), Or(p.voice, st.cfg.voice));
    if p.turnDetection.Some? {
      DetectionApplied(st, cfg);
      AfreshTold(st, Emit(ApplyTurnDetection(st.(cfg := cfg)), SessionUpdated), p);
    } else {
      AsideTold(st, Emit(st.(cfg := cfg), SessionUpdated), p);
    }
  }

  lemma AfreshTold(st: State, st': State, p: SessionPatch)
    requires p.turnDetection.Some? && ListensAfresh(st, st', p.turnDetection.value)
    requires Patched(st.cfg, st'.cfg, p) && st'.trace == st.trace + [SessionUpdated]
    ensures UpdateTold(st, st', p)
  {
    hide ListensAfresh;
  }

  lemma AsideTold(st: State, st': State, p: SessionPatch)
    requires p.turnDetection.None? && Patched(st.cfg, st'.cfg, p)
    requires st' == st.(cfg := st'.cfg, trace := st.trace + [SessionUpdated])
    ensures UpdateTold(st, st', p)
  {
  }

  lemma DetectionApplied(st: State, cfg: Config)
    ensures ListensAfresh(st, Emit(ApplyTurnDetection(st.(cfg := cfg)), SessionUpdated), cfg.turnDetection)
    ensures var st' := ApplyTurnDetection(st.(cfg := cfg)); st'.cfg == cfg && st'.trace == st.trace
  {
    hide Vad.NewDetector;
  }

  // Clearing the input forgets the audio, and with it the speech and the turn in it; the
  // timeline goes on where it stands.
  lemma ClearAudioTells(st: State, io: Io)
    ensures var st' := OnCommand(st, ClearAudio, io);
            && st'.trace == st.trace + [AudioBufferCleared] && st'.eot.None? && st'.speechItem == 0
            && st'.buffer.pcm == [] && InputBuffer.TotalMs(st'.buffer) == InputBuffer.TotalMs(st.buffer)
            && st'.buffer.baseMs == InputBuffer.TotalMs(st.buffer)
            && st'.buffer.segStartMs == -1 && st'.buffer.segEndMs == -1
            && (st.detector.Some? <==> st'.detector.Some?)
            && (st.detector.Some? ==>
                  st'.detector.value == st.detector.value.(pending := [], elapsedMs := 0, speaking := false,
                                                           lastVoiced := 0))
            && st'.turn == st.turn.(speaking := false, pendingEot := false, finalPending := false)
            && st' == st.(buffer := st'.buffer, detector := st'.detector, turn := st'.turn, eot := None,
                          speechItem := 0,
                          trace := st'.trace)
  {
  }

  // ---- responses -------------------------------------------------------------------------------------------

  // A response is created for the client unless one is active, or what it asks for is
  // not allowed.
  lemma CreateResponseTells(st: State, ov: Overrides, io: Io)
    requires ActorInv(st)
    ensures var st' := OnCommand(st, CreateResponse(ov), io);
            if st.active.Some? then st' == Emit(st, ErrorEvent(ResponseAlreadyActive, false))
            else if ov.voice.Some? && ov.voice.value != st.cfg.voice && st.audioEmitted then
              st' == Emit(st, ErrorEvent(VoiceLocked, false))
            else if !ov.valid then st' == Emit(st, ErrorEvent(InvalidOverrides, false))
            else Answers.CreationTold(st, st', if ov.textOnly.Some? then ov.textOnly.value else st.cfg.textOnly)
  {
    hide ActorInv;
    hide StartResponse;
    hide Answers.CreationTold;
    assert st.(turn := st.turn) == st;
    if st.active.None? { Answers.CreationTells(st, ov); }
  }

  // Closing takes effect at the end of the session.
  lemma CloseTells(st: State, io: Io)
    ensures OnCommand(st, CloseSession, io) == st.(cancelled := true)
  {
  }

  // Audio that would not fit, or that the recognizer does not take, ends the session.
  lemma AudioFails(st: State, pcm: Bytes, io: Io)
    ensures var st' := OnAudio(st, pcm, io);
            && (|st.buffer.pcm| + |pcm| > st.buffer.maxBytes ==>
                  st' == st.(cancelled := true, trace := st.trace + [ErrorEvent(BufferOverflow, true)]))
            && (|st.buffer.pcm| + |pcm| <= st.buffer.maxBytes && !io.pushOk ==>
                  && st'.cancelled && st'.trace == st.trace + [ErrorEvent(ProviderError, true)]
                  && st'.buffer.pcm == st.buffer.pcm + pcm && st'.active == st.active)
  {
    hide OnVadEvents;
    hide Vad.Process;
  }

  // ---- tool calls ------------------------------------------------------------------------------------------

  // The first call of a response is delivered at once and whole, at the end of the
  // conversation; another one changes nothing.
  lemma CallTells(st: State, ev: PipeEvent)
    requires ActorInv(st) && Fresh(st, ev) && ev.PipeToolCall?
    ensures var st' := OnPipeEvent(st, ev);
            if st.active.value.toolItem != 0 then st' == st
            else
              var ref := st.conv.next + 1;
              var resp := st.active.value.ref;
              var previous := if st.conv.items == [] then 0 else st.conv.items[|st.conv.items| - 1];
              var v := ItemView(ref, NoRole, ToolCallContent, Completed, ev.call.arguments, 0, true, ev.call.name,
                                ev.call.id);
              && st'.conv.items == st.conv.items + [ref]
              && st'.conv.index == st.conv.index[ref := Item(v, [], [], 0)]
              && st'.active == Some(st.active.value.(toolItem := ref))
              && st'.trace == st.trace + [OutputItemAdded(resp, v.(status := InProgress), previous),
                                          ToolCallArguments(resp, ref, ev.call.arguments), OutputItemDone(resp, v)]
  {
    hide ActorInv;
    hide Insert;
    ListAgrees(st);
    if st.active.value.toolItem == 0 {
      var view := ItemView(0, NoRole, ToolCallContent, InProgress, ev.call.arguments, 0, true, ev.call.name,
                           ev.call.id);
      InsertPlaces(st.conv, Item(view, [], [], 0), AtEnd);
    }
  }
}
