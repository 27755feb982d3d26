// What the actor does with the facts its pipeline stages send it
// (internal/session/session.go:1162-1285).
module PipeInvariants {
  import opened Audio
  import opened Utf8
  import opened Conversations
  import opened Events
  import opened Grammar
  import opened Actor
  import opened ActorInvariants
  import opened PipeLog
  import Turns

  // ---- what one fact adds ---------------------------------------------------------------------

  // The segments recorded on the running response's item.
  function Recorded(st: State): seq<Segment>
    requires st.active.Some?
  {
    var item := st.active.value.item;
    if item in st.conv.index then st.conv.index[item].segments else []
  }

  // The alignment recorded on it.
  function Timings(st: State): seq<CharTiming>
    requires st.active.Some?
  {
    var item := st.active.value.item;
    if item in st.conv.index then st.conv.index[item].alignment else []
  }

  // No item with segments or audio but the running response's own has changed.
  ghost predicate OthersKept(st: State, st': State)
    requires st'.active.Some?
  {
    && st.trace <= st'.trace
    && forall ref :: ref in st'.conv.index && ref != st'.active.value.item
                     && (st'.conv.index[ref].segments != [] || Spoken(st'.conv.index[ref])) ==>
         ref in st.conv.index && st'.conv.index[ref] == st.conv.index[ref]
  }

  // The response keeps running and has taken in exactly ev.
  ghost predicate Absorbed(st: State, st': State, ev: PipeEvent)
    requires IsRunning(st)
  {
    && IsRunning(st')
    && st'.activeGen == st.activeGen && st'.launches == st.launches
    && (var r, r' := st.active.value, st'.active.value;
        && r'.ref == r.ref && r'.gen == r.gen && r'.textOnly == r.textOnly
        && r'.spoke == (r.spoke || IsText(ev))
        && r'.llmDone == (r.llmDone || ev.PipeLlmDone?)
        && r'.ttsDone == (r.ttsDone || ev.PipeTtsDone?)
        && r'.finish == (if ev.PipeLlmDone? then ev.finish else r.finish)
        && (r'.item != 0 <==> r.item != 0 || IsText(ev) || ev.PipeAudioDelta?)
        && (r.item != 0 ==> r'.item == r.item))
    && ParseAll(st.trace).Open? && ParseAll(st'.trace).Open?
    && (var o, o' := ParseAll(st.trace).run, ParseAll(st'.trace).run;
        o'.text == o.text + TextOf(ev) && o'.bytes == o.bytes + BytesOf(ev) && o'.truncated == o.truncated)
    && OthersKept(st, st')
    && Recorded(st') == Recorded(st) + (if st.active.value.item != 0 then SegmentsOf(ev) else [])
    && Timings(st') == Timings(st) + (if st.active.value.item != 0 then TimingsOf(ev) else [])
  }

  // The response ends with ev: an error fails it, or ev was the last it needed.
  ghost predicate Ended(st: State, st': State, ev: PipeEvent)
    requires IsRunning(st)
  {
    var r := st.active.value;
    && st'.active.None?
    && (ev.PipeError?
        || (ev.PipeLlmDone? && Done(r.(llmDone := true)))
        || (ev.PipeTtsDone? && Done(r.(ttsDone := true, audioFlushed := true))))
  }

  // ---- the message item -------------------------------------------------------------------------

  // w is conv and r with the message item in place, announced if it is new.
  ghost predicate InPlace(st: State, w: WithItem)
    requires IsRunning(st) && ParseAll(st.trace).Open?
  {
    var r := st.active.value;
    var o := ParseAll(st.trace).run;
    && ConvInv(w.conv) && w.conv.next >= st.conv.next
    && w.r == r.(item := w.r.item) && w.r.item != 0
    && w.r.item in w.conv.index && w.conv.index[w.r.item].view.ref == w.r.item
    && ItemTold(w.conv.index[w.r.item], w.r, o.(msg := w.r.item))
    && AdvanceAll(ParseAll(st.trace), w.added) == Open(o.(msg := w.r.item))
    && (r.item != 0 ==> w.conv == st.conv && w.r.item == r.item)
    && (r.item == 0 ==>
          && w.r.item !in st.conv.index && w.r.item == st.conv.next + 1
          && w.conv.index[w.r.item].segments == [] && w.conv.index[w.r.item].alignment == []
          && w.conv.index == st.conv.index[w.r.item := w.conv.index[w.r.item]])
  }

  lemma EnsureInPlace(st: State)
    requires ActorInv(st) && IsRunning(st)
    ensures InPlace(st, EnsureOutputItem(st.conv, st.active.value))
  {
    hide ParseAll;
    hide Advance;
    var r := st.active.value;
    var o := ParseAll(st.trace).run;
    if r.item == 0 {
      var view := ItemView(0, AssistantRole, if r.textOnly then TextContent else AudioContent,
                           InProgress, [], 0, true, [], []);
      AppendKeeps(st, Item(view, [], [], 0));
      var added := AppendItem(st.conv, Item(view, [], [], 0));
      MessageEvent(o, added.item.view, added.previous);
      AdvanceOne(ParseAll(st.trace), OutputItemAdded(r.ref, added.item.view, added.previous));
    } else {
      assert o.(msg := r.item) == o;
    }
  }

  // The item once it has taken in a delta, and the events that say so.
  ghost predicate Delivered(st: State, st': State, w: WithItem, it: Item, o': Running)
    requires IsRunning(st)
  {
    && st'.conv == Update(w.conv, it) && it.view.ref == w.r.item
    && it.segments == (if w.r.item in w.conv.index then w.conv.index[w.r.item].segments else [])
    && it.alignment == (if w.r.item in w.conv.index then w.conv.index[w.r.item].alignment else [])
    && st'.activeGen == st.activeGen && st'.launches == st.launches && st'.nextResp == st.nextResp
    && st'.asrWait == st.asrWait && st'.pendingItem == st.pendingItem && st'.speechItem == st.speechItem
    && st'.active.Some? && st'.active.value == w.r.(spoke := st'.active.value.spoke)
    && (w.r.spoke ==> st'.active.value.spoke)
    && o'.msg == w.r.item && ItemTold(it, w.r, o')
    && st.trace <= st'.trace && ParseAll(st'.trace) == Open(o')
  }

  lemma DeliveredKeeps(st: State, st': State, w: WithItem, it: Item, o': Running)
    requires ActorInv(st) && IsRunning(st) && InPlace(st, w) && Delivered(st, st', w, it, o')
    requires o' == ParseAll(st.trace).run.(msg := w.r.item, text := o'.text, bytes := o'.bytes)
    requires TimerInv(st')
    ensures ActorInv(st')
  {
    hide ParseAll;
    hide AdvanceAll;
    UpdateKeeps(w.conv, it);
  }

  lemma TextDelivered(st: State, textOnly: bool, delta: Text)
    requires ActorInv(st) && IsRunning(st) && textOnly == st.active.value.textOnly
    ensures var w := EnsureOutputItem(st.conv, st.active.value);
            var st' := AddText(st, textOnly, st.active.value.ref, delta);
            var o := ParseAll(st.trace).run;
            Delivered(st, st', w, WithText(w.conv.index[w.r.item], delta), o.(msg := w.r.item, text := o.text + delta))
  {
    hide ParseAll;
    hide Advance;
    EnsureInPlace(st);
    var r := st.active.value;
    var w := EnsureOutputItem(st.conv, r);
    var o := ParseAll(st.trace).run.(msg := w.r.item);
    var e := TextDeltaEvent(textOnly, r.ref, w.r.item, delta);
    ParseAppend(st.trace, w.added + [e]);
    AdvanceAppend(ParseAll(st.trace), w.added, [e]);
    AdvanceOne(Open(o), e);
    TextEvent(o, delta);
  }

  lemma AudioDelivered(st: State, pcm: Bytes)
    requires ActorInv(st) && IsRunning(st) && !st.active.value.textOnly
    ensures var w := EnsureOutputItem(st.conv, st.active.value);
            var st' := AddAudio(st, st.active.value.ref, pcm);
            var o := ParseAll(st.trace).run;
            Delivered(st, st', w, WithAudio(w.conv.index[w.r.item], |pcm|),
                      o.(msg := w.r.item, bytes := o.bytes + |pcm|))
  {
    hide ParseAll;
    hide Advance;
    EnsureInPlace(st);
    var r := st.active.value;
    var w := EnsureOutputItem(st.conv, r);
    var o := ParseAll(st.trace).run.(msg := w.r.item);
    var e := OutputAudioDelta(r.ref, w.r.item, pcm);
    ParseAppend(st.trace, w.added + [e]);
    AdvanceAppend(ParseAll(st.trace), w.added, [e]);
    AdvanceOne(Open(o), e);
    AudioEvent(o, pcm);
  }

  // ---- facts that keep the response running -----------------------------------------------------------

  // What a delivery tells, told as absorption.
  lemma DeliveredIsAbsorbed(st: State, st': State, w: WithItem, it: Item, o': Running, ev: PipeEvent)
    requires ActorInv(st) && IsRunning(st) && InPlace(st, w) && Delivered(st, st', w, it, o')
    requires IsText(ev) || ev.PipeAudioDelta?
    requires var o := ParseAll(st.trace).run;
             o' == o.(msg := w.r.item, text := o.text + TextOf(ev), bytes := o.bytes + BytesOf(ev))
    requires st'.active.value.spoke == (st.active.value.spoke || IsText(ev))
    ensures Absorbed(st, st', ev)
  {
    hide ParseAll;
    hide AdvanceAll;
    hide ItemTold;
    hide TimerInv;
  }

  lemma TextAbsorbed(st: State, ev: PipeEvent)
    requires ActorInv(st) && Fresh(st, ev) && Addressed(st, ev) && IsText(ev)
    ensures ActorInv(OnPipeEvent(st, ev)) && Absorbed(st, OnPipeEvent(st, ev), ev)
  {
    hide ParseAll;
    hide AddText;
    hide EnsureOutputItem;
    hide ActorInv;
    hide InPlace;
    hide Delivered;
    hide Absorbed;
    var r := st.active.value;
    RunningIsInProgress(st);
    EnsureInPlace(st);
    TextDelivered(st, r.textOnly, ev.delta);
    var w := EnsureOutputItem(st.conv, r);
    var o := ParseAll(st.trace).run;
    var o' := o.(msg := w.r.item, text := o.text + ev.delta);
    var st' := AddText(st, r.textOnly, r.ref, ev.delta);
    AddTextAside(st, r.textOnly, r.ref, ev.delta);
    DeliveredKeeps(st, st', w, WithText(w.conv.index[w.r.item], ev.delta), o');
    DeliveredIsAbsorbed(st, st', w, WithText(w.conv.index[w.r.item], ev.delta), o', ev);
  }

  lemma AddTextAside(st: State, textOnly: bool, resp: ResponseRef, delta: Text)
    requires ActorInv(st) && IsRunning(st)
    ensures var st' := AddText(st, textOnly, resp, delta);
            TimerInv(st') && st'.active.Some? && st'.active.value.spoke
  {
    hide ResponseInv;
    hide WithText;
  }

  lemma AudioAbsorbed(st: State, ev: PipeEvent)
    requires ActorInv(st) && Fresh(st, ev) && Addressed(st, ev) && ev.PipeAudioDelta?
    ensures ActorInv(OnPipeEvent(st, ev)) && Absorbed(st, OnPipeEvent(st, ev), ev)
  {
    hide ParseAll;
    hide AddAudio;
    hide EnsureOutputItem;
    hide ActorInv;
    hide InPlace;
    hide Delivered;
    hide Absorbed;
    var r := st.active.value;
    RunningIsInProgress(st);
    EnsureInPlace(st);
    AudioDelivered(st, ev.pcm);
    var w := EnsureOutputItem(st.conv, r);
    var o := ParseAll(st.trace).run;
    var o' := o.(msg := w.r.item, bytes := o.bytes + |ev.pcm|);
    var st' := AddAudio(st, r.ref, ev.pcm);
    AddAudioAside(st, r.ref, ev.pcm);
    DeliveredKeeps(st, st', w, WithAudio(w.conv.index[w.r.item], |ev.pcm|), o');
    assert o' == o.(msg := w.r.item, text := o.text + [], bytes := o'.bytes);
    DeliveredIsAbsorbed(st, st', w, WithAudio(w.conv.index[w.r.item], |ev.pcm|), o', ev);
  }

  lemma AddAudioAside(st: State, resp: ResponseRef, pcm: Bytes)
    requires ActorInv(st) && IsRunning(st)
    ensures var st' := AddAudio(st, resp, pcm);
            TimerInv(st') && st'.active.Some? && st'.active.value.spoke == st.active.value.spoke
  {
    hide ResponseInv;
    hide WithAudio;
  }

  // The call's item joins the conversation and the client hears all of it.
  ghost predicate CallPut(st: State, st': State, it: Item)
    requires IsRunning(st)
  {
    && ConvInv(st'.conv) && st'.conv.index == st.conv.index[it.view.ref := it] && st'.conv.next >= st.conv.next
    && it.view.ref == st.conv.next + 1 && it.segments == [] && it.view.role.NoRole?
    && st'.active == Some(st.active.value.(toolItem := it.view.ref))
    && st'.activeGen == st.activeGen && st'.launches == st.launches && st'.nextResp == st.nextResp
    && st'.asrWait == st.asrWait && st'.pendingItem == st.pendingItem && st'.speechItem == st.speechItem
    && st.trace <= st'.trace
    && ParseAll(st.trace).Open? && ParseAll(st'.trace).Open?
    && ParseAll(st'.trace).run == ParseAll(st.trace).run.(tool := ToolDelivered)
  }

  lemma CallDelivered(st: State, call: ToolCall)
    requires ActorInv(st) && IsRunning(st) && st.active.value.toolItem == 0
    ensures exists it :: CallPut(st, DeliverToolCall(st, call), it)
  {
    hide ParseAll;
    hide AdvanceAll;
    hide CallEvents;
    hide AppendItem;
    hide TimerInv;
    var r := st.active.value;
    var view := ItemView(0, NoRole, ToolCallContent, InProgress, call.arguments, 0, true, call.name, call.id);
    AppendKeeps(st, Item(view, [], [], 0));
    var added := AppendItem(st.conv, Item(view, [], [], 0));
    CallIsTold(st, added.item.view, added.previous);
    var it := added.item.(view := added.item.view.(status := Completed));
    UpdateKeeps(added.conv, it);
    assert CallPut(st, DeliverToolCall(st, call), it);
  }

  lemma CallIsTold(st: State, v: ItemView, previous: ItemRef)
    requires ResponseInv(st) && IsRunning(st) && st.active.value.toolItem == 0
    requires v.ref != 0 && v.content.ToolCallContent?
    ensures ParseAll(st.trace).Open?
    ensures var o := ParseAll(st.trace).run;
            ParseAll(st.trace + CallEvents(st.active.value.ref, v, previous)) == Open(o.(tool := ToolDelivered))
  {
    hide ParseAll;
    hide AdvanceAll;
    hide CallEvents;
    hide ItemTold;
    hide ItemsInv;
    ParseAppend(st.trace, CallEvents(st.active.value.ref, v, previous));
    CallParses(ParseAll(st.trace).run, v, previous);
  }

  lemma CallPutKeeps(st: State, st': State, it: Item, ev: PipeEvent)
    requires ActorInv(st) && IsRunning(st) && CallPut(st, st', it) && TimerInv(st') && ev.PipeToolCall?
    ensures ActorInv(st') && Absorbed(st, st', ev)
  {
    hide TimerInv;
    hide ResponseInv;
    hide CallPut;
    hide Absorbed;
    CallPutLeaves(st, st', it);
    CallPutIsAbsorbed(st, st', it, ev);
  }

  lemma CallPutLeaves(st: State, st': State, it: Item)
    requires ResponseInv(st) && IsRunning(st) && CallPut(st, st', it)
    ensures ResponseInv(st')
  {
    hide ParseAll;
  }

  lemma CallPutIsAbsorbed(st: State, st': State, it: Item, ev: PipeEvent)
    requires ActorInv(st) && IsRunning(st) && CallPut(st, st', it) && ev.PipeToolCall?
    ensures Absorbed(st, st', ev)
  {
    hide ParseAll;
    hide TimerInv;
    hide ItemTold;
  }

  lemma CallAside(st: State, call: ToolCall)
    requires IsRunning(st) && TimerInv(st)
    ensures TimerInv(DeliverToolCall(st, call))
  {
  }

  lemma CallAbsorbed(st: State, ev: PipeEvent)
    requires ActorInv(st) && Fresh(st, ev) && ev.PipeToolCall?
    ensures ActorInv(OnPipeEvent(st, ev)) && Absorbed(st, OnPipeEvent(st, ev), ev)
  {
    hide ParseAll;
    hide CallPut;
    hide TimerInv;
    hide ResponseInv;
    if st.active.value.toolItem == 0 {
      hide Absorbed;
      hide DeliverToolCall;
      CallDelivered(st, ev.call);
      CallAside(st, ev.call);
      var it :| CallPut(st, DeliverToolCall(st, ev.call), it);
      CallPutKeeps(st, DeliverToolCall(st, ev.call), it, ev);
    } else {
      SecondCallIgnored(st, ev);
    }
  }

  lemma SecondCallIgnored(st: State, ev: PipeEvent)
    requires ActorInv(st) && Fresh(st, ev) && ev.PipeToolCall? && st.active.value.toolItem != 0
    ensures OnPipeEvent(st, ev) == st && Absorbed(st, st, ev)
  {
    hide ParseAll;
  }

  lemma BookkeepingAbsorbed(st: State, ev: PipeEvent)
    requires ActorInv(st) && Fresh(st, ev) && (ev.PipeTtsStart? || ev.PipeSegment? || ev.PipeAlignment?)
    ensures ActorInv(OnPipeEvent(st, ev)) && Absorbed(st, OnPipeEvent(st, ev), ev)
  {
    hide ActorInv;
    hide Absorbed;
    if HasOutput(st) && !ev.PipeTtsStart? {
      var it := st.conv.index[st.active.value.item];
      var it' := if ev.PipeSegment? then it.(segments := it.segments + [ev.segment])
                 else it.(alignment := it.alignment + ev.timings);
      RecordKeeps(st, it');
      RecordIsAbsorbed(st, it', ev);
    } else {
      NothingRecorded(st, ev);
    }
  }

  lemma NothingRecorded(st: State, ev: PipeEvent)
    requires ActorInv(st) && Fresh(st, ev) && (ev.PipeTtsStart? || ev.PipeSegment? || ev.PipeAlignment?)
    requires ev.PipeTtsStart? || !HasOutput(st)
    ensures Absorbed(st, st, ev)
  {
    hide ParseAll;
    hide TimerInv;
    hide ItemTold;
  }

  // Only the segments and the alignment of the message item change.
  lemma RecordKeeps(st: State, it: Item)
    requires ActorInv(st) && IsRunning(st) && HasOutput(st)
    requires var was := st.conv.index[st.active.value.item];
             it == was.(segments := it.segments, alignment := it.alignment)
    ensures ActorInv(st.(conv := Update(st.conv, it)))
  {
    hide ParseAll;
    UpdateKeeps(st.conv, it);
  }

  lemma RecordIsAbsorbed(st: State, it: Item, ev: PipeEvent)
    requires ActorInv(st) && Fresh(st, ev) && HasOutput(st) && (ev.PipeSegment? || ev.PipeAlignment?)
    requires var was := st.conv.index[st.active.value.item];
             it == was.(segments := was.segments + SegmentsOf(ev), alignment := was.alignment + TimingsOf(ev))
    ensures Absorbed(st, st.(conv := Update(st.conv, it)), ev)
  {
    hide ParseAll;
    hide TimerInv;
    hide ItemTold;
  }

  // ---- facts that may end it ------------------------------------------------------------------------------

  // A progress flag is set.
  lemma FlagKeeps(st: State, r': Response)
    requires ActorInv(st) && IsRunning(st) && !Done(r')
    requires var r := st.active.value;
             r' == r.(llmDone := r'.llmDone, finish := r'.finish, ttsDone := r'.ttsDone,
                      audioFlushed := r'.audioFlushed)
    requires r'.audioFlushed == r'.ttsDone
    ensures ActorInv(st.(active := Some(r')))
  {
    hide ParseAll;
  }

  // Finishing looks at no progress flag, so it may be judged before they are set.
  lemma FinishIgnoresFlags(st: State, r': Response, status: ResponseStatus, reason: StatusReason)
    requires st.active.Some?
    requires var r := st.active.value;
             r' == r.(llmDone := r'.llmDone, finish := r'.finish, ttsDone := r'.ttsDone,
                      audioFlushed := r'.audioFlushed)
    requires r'.status.ResponseInProgress?
    ensures FinishResponse(st.(active := Some(r')), status, reason) == FinishResponse(st, status, reason)
  {
    hide CloseEvents;
    hide Turns.Step;
  }

  lemma CompletionKeeps(st: State, r': Response, ev: PipeEvent)
    requires ActorInv(st) && Fresh(st, ev) && (ev.PipeLlmDone? || ev.PipeTtsDone?)
    requires var r := st.active.value;
             if ev.PipeLlmDone? then r' == r.(llmDone := true, finish := ev.finish)
             else r' == r.(ttsDone := true, audioFlushed := true)
    ensures var st' := MaybeComplete(st.(active := Some(r')));
            ActorInv(st') && if Done(r') then Ended(st, st', ev) && Good(st, st') else Absorbed(st, st', ev)
  {
    hide ActorInv;
    hide Evolves;
    hide FinishResponse;
    hide Absorbed;
    RunningIsInProgress(st);
    if Done(r') {
      DoneEnds(st, r', ev);
    } else {
      FlagKeeps(st, r');
      FlagIsAbsorbed(st, r', ev);
    }
  }

  lemma DoneEnds(st: State, r': Response, ev: PipeEvent)
    requires ActorInv(st) && IsRunning(st) && Done(r') && (ev.PipeLlmDone? || ev.PipeTtsDone?)
    requires var r := st.active.value;
             if ev.PipeLlmDone? then r' == r.(llmDone := true, finish := ev.finish)
             else r' == r.(ttsDone := true, audioFlushed := true)
    ensures var st' := MaybeComplete(st.(active := Some(r')));
            ActorInv(st') && Ended(st, st', ev) && Good(st, st')
  {
    hide ActorInv;
    hide Evolves;
    hide FinishResponse;
    var (status, reason) := Outcome(r');
    RunningIsInProgress(st);
    FinishIgnoresFlags(st, r', status, reason);
    assert ResponseInv(st) && TimerInv(st) by { Halves(st); }
    FinishKeeps(st, status, reason);
  }

  lemma Halves(st: State)
    requires ActorInv(st)
    ensures ResponseInv(st) && TimerInv(st)
  {
  }

  lemma RunningIsInProgress(st: State)
    requires ActorInv(st) && IsRunning(st)
    ensures st.active.value.status.ResponseInProgress? && st.active.value.audioFlushed == st.active.value.ttsDone
    ensures ParseAll(st.trace).Open?
  {
  }

  lemma FlagIsAbsorbed(st: State, r': Response, ev: PipeEvent)
    requires ActorInv(st) && IsRunning(st) && (ev.PipeLlmDone? || ev.PipeTtsDone?)
    requires var r := st.active.value;
             if ev.PipeLlmDone? then r' == r.(llmDone := true, finish := ev.finish)
             else r' == r.(ttsDone := true, audioFlushed := true)
    ensures Absorbed(st, st.(active := Some(r')), ev)
  {
    hide ParseAll;
    hide TimerInv;
    hide ItemTold;
  }

  lemma ErrorEnds(st: State, ev: PipeEvent)
    requires ActorInv(st) && Fresh(st, ev) && ev.PipeError?
    ensures ActorInv(OnPipeEvent(st, ev))
    ensures Good(st, OnPipeEvent(st, ev)) && Ended(st, OnPipeEvent(st, ev), ev)
  {
    hide Evolves;
    hide ResponseInv;
    ErrorKeeps(st, ProviderError);
    FinishKeeps(EmitError(st, ProviderError), ResponseFailed, NoReason);
    GoodTransitive(st, EmitError(st, ProviderError), FailResponse(st, ProviderError));
  }

  // Any queued fact, stale or fresh: a stale one changes nothing, a fresh one is
  // taken in exactly, or ends the response.
  lemma OnPipeEventKeeps(st: State, ev: PipeEvent)
    requires ActorInv(st) && Addressed(st, ev)
    ensures ActorInv(OnPipeEvent(st, ev))
    ensures !Fresh(st, ev) ==> OnPipeEvent(st, ev) == st
    ensures Fresh(st, ev) ==>
      || (Ended(st, OnPipeEvent(st, ev), ev) && Good(st, OnPipeEvent(st, ev)))
      || Absorbed(st, OnPipeEvent(st, ev), ev)
  {
    hide ActorInv;
    hide Absorbed;
    hide Good;
    hide MaybeComplete;
    if Fresh(st, ev) {
      var r := st.active.value;
      match ev
      case PipeTextDelta(_, _, _) => TextAbsorbed(st, ev);
      case PipeTranscriptDelta(_, _, _) => TextAbsorbed(st, ev);
      case PipeAudioDelta(_, _, _) => AudioAbsorbed(st, ev);
      case PipeToolCall(_, _) => CallAbsorbed(st, ev);
      case PipeTtsStart(_) => BookkeepingAbsorbed(st, ev);
      case PipeAlignment(_, _) => BookkeepingAbsorbed(st, ev);
      case PipeSegment(_, _) => BookkeepingAbsorbed(st, ev);
      case PipeLlmDone(_, finish) => CompletionKeeps(st, r.(llmDone := true, finish := finish), ev);
      case PipeTtsDone(_) => CompletionKeeps(st, r.(ttsDone := true, audioFlushed := true), ev);
      case PipeError(_, _) => ErrorEnds(st, ev);
    }
  }

  lemma PipeEventIsLegal(st: State, ev: PipeEvent)
    requires ActorInv(st) && Addressed(st, ev)
    ensures var st' := OnPipeEvent(st, ev);
            ActorInv(st') && Legal(st'.trace) && st.trace <= st'.trace
  {
    hide ActorInv;
    hide OnPipeEvent;
    OnPipeEventKeeps(st, ev);
    InvIsLegal(OnPipeEvent(st, ev));
  }

  lemma InvIsLegal(st: State)
    requires ActorInv(st)
    ensures Legal(st.trace)
  {
    hide ParseAll;
    hide TimerInv;
  }
}
