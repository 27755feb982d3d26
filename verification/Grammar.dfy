// The grammar of a response on the wire, read off the emitted events alone:
// created; the message item is added before any delta; at most one tool call,
// delivered as one contiguous added/arguments/done block; then the stream
// dones, the message item done and response done, contiguous as well.
module Grammar {
  import opened Audio
  import opened Utf8
  import opened Conversations
  import opened Events

  datatype Tool = NoTool | ToolAdded(item: ItemRef) | ToolArguments(item: ItemRef) | ToolDelivered

  datatype Closing = Streaming | AudioClosed | TextClosed | ItemClosed(status: ItemStatus)

  // What the client has been told about the open response: the concatenated
  // text deltas, the number of audio bytes, and whether the item was truncated.
  datatype Running = Running(
    resp: ResponseRef,
    textOnly: bool,
    msg: ItemRef,
    text: Text,
    bytes: nat,
    tool: Tool,
    closing: Closing,
    truncated: bool)

  datatype Parse = Idle(last: ResponseRef) | Open(run: Running) | Reject

  predicate AboutResponse(e: Event) {
    || e.ResponseCreated? || e.OutputItemAdded? || e.OutputTextDelta? || e.OutputTranscriptDelta?
    || e.OutputAudioDelta? || e.ToolCallArguments? || e.OutputTextDone? || e.OutputAudioDone?
    || e.OutputTranscriptDone? || e.OutputItemDone? || e.ResponseDone?
  }

  function Opened(resp: ResponseRef, textOnly: bool): Running {
    Running(resp, textOnly, 0, [], 0, NoTool, Streaming, false)
  }

  function WhileIdle(last: ResponseRef, e: Event): Parse {
    if e.ResponseCreated? && e.resp > last then Open(Opened(e.resp, e.textOnly))
    else if AboutResponse(e) then Reject
    else Idle(last)
  }

  // Between a call item's added and its done only its own events may appear.
  function InsideCall(o: Running, e: Event): Parse {
    match o.tool
    case ToolAdded(item) =>
      if e.ToolCallArguments? && e.resp == o.resp && e.item == item then Open(o.(tool := ToolArguments(item)))
      else Reject
    case ToolArguments(item) =>
      if e.OutputItemDone? && e.resp == o.resp && e.view.ref == item && e.view.status.Completed?
         && e.view.content.ToolCallContent? then
        Open(o.(tool := ToolDelivered))
      else Reject
    case _ => Reject
  }

  predicate IsMessage(o: Running, v: ItemView) {
    && v.ref != 0 && v.role.AssistantRole? && v.status.InProgress? && v.text == [] && v.audioMs == 0
    && v.transcriptDone && v.name == [] && v.callId == []
    && v.content == (if o.textOnly then TextContent else AudioContent)
  }

  predicate OnMessage(o: Running, resp: ResponseRef, item: ItemRef) {
    resp == o.resp && o.msg != 0 && item == o.msg
  }

  function WhileStreaming(o: Running, e: Event): Parse {
    match e
    case OutputItemAdded(resp, v, _) =>
      if resp != o.resp then Reject
      else if v.content.ToolCallContent? then
        if o.tool.NoTool? && v.ref != 0 then Open(o.(tool := ToolAdded(v.ref))) else Reject
      else if o.msg == 0 && IsMessage(o, v) then Open(o.(msg := v.ref)) else Reject
    case OutputTextDelta(resp, item, delta) =>
      if o.textOnly && OnMessage(o, resp, item) then Open(o.(text := o.text + delta)) else Reject
    case OutputTranscriptDelta(resp, item, delta) =>
      if !o.textOnly && OnMessage(o, resp, item) then Open(o.(text := o.text + delta)) else Reject
    case OutputAudioDelta(resp, item, pcm) =>
      if !o.textOnly && OnMessage(o, resp, item) then Open(o.(bytes := o.bytes + |pcm|)) else Reject
    case OutputTextDone(resp, item, text) =>
      if o.textOnly && OnMessage(o, resp, item) && (o.truncated || text == o.text) then
        Open(o.(closing := TextClosed))
      else Reject
    case OutputAudioDone(resp, item) =>
      if !o.textOnly && OnMessage(o, resp, item) then Open(o.(closing := AudioClosed)) else Reject
    case ResponseDone(resp, status, _, output) =>
      if resp == o.resp && o.msg == 0 && !status.ResponseInProgress? && |output| <= 1 then Idle(o.resp) else Reject
    case ItemTruncated(item, _) =>
      if o.msg != 0 && item == o.msg then Open(o.(truncated := true)) else Open(o)
    case _ => if AboutResponse(e) then Reject else Open(o)
  }

  // The finished item says what the deltas said, unless it was truncated.
  predicate Summarizes(o: Running, v: ItemView) {
    && v.ref == o.msg
    && !v.status.InProgress? && !v.content.ToolCallContent?
    && (o.truncated || (v.text == o.text && v.audioMs == o.bytes / 48))
  }

  function WhileClosing(o: Running, e: Event): Parse {
    match o.closing
    case AudioClosed =>
      if e.OutputTranscriptDone? && OnMessage(o, e.resp, e.item) && (o.truncated || e.text == o.text) then
        Open(o.(closing := TextClosed))
      else Reject
    case TextClosed =>
      if e.OutputItemDone? && e.resp == o.resp && Summarizes(o, e.view) then
        Open(o.(closing := ItemClosed(e.view.status)))
      else Reject
    case ItemClosed(status) =>
      if && e.ResponseDone? && e.resp == o.resp && !e.status.ResponseInProgress?
         && (status.Completed? <==> e.status.ResponseCompleted?)
         && 1 <= |e.output| <= 2 && e.output[0].ref == o.msg
      then Idle(o.resp) else Reject
    case Streaming => Reject
  }

  function Advance(p: Parse, e: Event): Parse {
    match p
    case Reject => Reject
    case Idle(last) => WhileIdle(last, e)
    case Open(o) =>
      if o.tool.ToolAdded? || o.tool.ToolArguments? then InsideCall(o, e)
      else if o.closing.Streaming? then WhileStreaming(o, e)
      else WhileClosing(o, e)
  }

  function ParseAll(trace: seq<Event>): Parse {
    if trace == [] then Idle(0) else Advance(ParseAll(trace[..|trace| - 1]), trace[|trace| - 1])
  }

  predicate Legal(trace: seq<Event>) {
    !ParseAll(trace).Reject?
  }

  lemma ParseSnoc(trace: seq<Event>, e: Event)
    ensures ParseAll(trace + [e]) == Advance(ParseAll(trace), e)
  {
    assert (trace + [e])[..|trace|] == trace;
  }

  function AdvanceAll(p: Parse, es: seq<Event>): Parse
    decreases |es|
  {
    if es == [] then p else AdvanceAll(Advance(p, es[0]), es[1..])
  }

  lemma {:induction false} ParseAppend(trace: seq<Event>, es: seq<Event>)
    ensures ParseAll(trace + es) == AdvanceAll(ParseAll(trace), es)
    decreases |es|
  {
    hide Advance;
    if es == [] {
      assert trace + es == trace;
    } else {
      assert trace + es == (trace + [es[0]]) + es[1..];
      ParseSnoc(trace, es[0]);
      ParseAppend(trace + [es[0]], es[1..]);
    }
  }

  lemma {:induction false} AdvanceAppend(p: Parse, a: seq<Event>, b: seq<Event>)
    ensures AdvanceAll(p, a + b) == AdvanceAll(AdvanceAll(p, a), b)
    decreases |a|
  {
    hide Advance;
    if a == [] {
      assert a + b == b;
    } else {
      assert (a + b)[1..] == a[1..] + b;
      AdvanceAppend(Advance(p, a[0]), a[1..], b);
    }
  }

  lemma AdvanceOne(p: Parse, e: Event)
    ensures AdvanceAll(p, [e]) == Advance(p, e)
  {
    assert [e][1..] == [];
  }

  lemma AdvanceTwo(p: Parse, e1: Event, e2: Event)
    ensures AdvanceAll(p, [e1, e2]) == Advance(Advance(p, e1), e2)
  {
    hide Advance;
    assert [e1, e2][1..] == [e2];
    AdvanceOne(Advance(p, e1), e2);
  }

  lemma AdvanceThree(p: Parse, e1: Event, e2: Event, e3: Event)
    ensures AdvanceAll(p, [e1, e2, e3]) == Advance(Advance(Advance(p, e1), e2), e3)
  {
    hide Advance;
    assert [e1, e2, e3][1..] == [e2, e3];
    AdvanceTwo(Advance(p, e1), e2, e3);
  }

  // ---- events that come together ------------------------------------------------------------------

  // Between two events of its own the open response is quiet.
  predicate Quiet(o: Running) {
    o.closing.Streaming? && !o.tool.ToolAdded? && !o.tool.ToolArguments?
  }

  predicate AtRest(p: Parse) {
    p.Idle? || (p.Open? && Quiet(p.run))
  }

  predicate Plain(e: Event) {
    !AboutResponse(e) && !e.ItemTruncated?
  }

  lemma {:induction false} PlainEvents(p: Parse, es: seq<Event>)
    requires AtRest(p) && forall i :: 0 <= i < |es| ==> Plain(es[i])
    ensures AdvanceAll(p, es) == p
    decreases |es|
  {
    if es != [] {
      PlainEvent(p, es[0]);
      PlainEvents(p, es[1..]);
    }
  }

  lemma PlainEvent(p: Parse, e: Event)
    requires AtRest(p) && Plain(e)
    ensures Advance(p, e) == p
  {
  }

  lemma CreatedEvent(last: ResponseRef, resp: ResponseRef, textOnly: bool)
    requires resp > last
    ensures Advance(Idle(last), Event.ResponseCreated(resp, textOnly)) == Open(Opened(resp, textOnly))
  {
  }

  lemma MessageEvent(o: Running, v: ItemView, previous: ItemRef)
    requires Quiet(o) && o.msg == 0 && IsMessage(o, v)
    ensures Advance(Open(o), OutputItemAdded(o.resp, v, previous)) == Open(o.(msg := v.ref))
  {
  }

  lemma TextEvent(o: Running, delta: Text)
    requires Quiet(o) && o.msg != 0
    ensures o.textOnly ==> Advance(Open(o), OutputTextDelta(o.resp, o.msg, delta)) == Open(o.(text := o.text + delta))
    ensures !o.textOnly ==>
              Advance(Open(o), OutputTranscriptDelta(o.resp, o.msg, delta)) == Open(o.(text := o.text + delta))
  {
  }

  lemma AudioEvent(o: Running, pcm: Bytes)
    requires Quiet(o) && o.msg != 0 && !o.textOnly
    ensures Advance(Open(o), OutputAudioDelta(o.resp, o.msg, pcm)) == Open(o.(bytes := o.bytes + |pcm|))
  {
  }

  // A tool call's whole life.
  function CallEvents(resp: ResponseRef, v: ItemView, previous: ItemRef): seq<Event> {
    [OutputItemAdded(resp, v, previous), ToolCallArguments(resp, v.ref, v.text),
     OutputItemDone(resp, v.(status := Completed))]
  }

  lemma CallParses(o: Running, v: ItemView, previous: ItemRef)
    requires Quiet(o) && o.tool.NoTool? && v.ref != 0 && v.content.ToolCallContent?
    ensures AdvanceAll(Open(o), CallEvents(o.resp, v, previous)) == Open(o.(tool := ToolDelivered))
  {
    var es := CallEvents(o.resp, v, previous);
    AdvanceThree(Open(o), es[0], es[1], es[2]);
    assert Advance(Open(o), es[0]) == Open(o.(tool := ToolAdded(v.ref)));
    assert Advance(Open(o.(tool := ToolAdded(v.ref))), es[1]) == Open(o.(tool := ToolArguments(v.ref)));
  }

  lemma TruncatedEvent(p: Parse, item: ItemRef, audioMs: int)
    requires AtRest(p)
    ensures Advance(p, ItemTruncated(item, audioMs))
         == if p.Open? && p.run.msg != 0 && item == p.run.msg then Open(p.run.(truncated := true)) else p
  {
  }

  // The end of the message item: the stream dones, then the item done.
  function CloseEvents(resp: ResponseRef, textOnly: bool, v: ItemView): seq<Event> {
    (if textOnly then [OutputTextDone(resp, v.ref, v.text)]
     else [OutputAudioDone(resp, v.ref), OutputTranscriptDone(resp, v.ref, v.text)])
    + [OutputItemDone(resp, v)]
  }

  lemma CloseParses(o: Running, v: ItemView)
    requires Quiet(o) && o.msg != 0 && Summarizes(o, v)
    ensures AdvanceAll(Open(o), CloseEvents(o.resp, o.textOnly, v)) == Open(o.(closing := ItemClosed(v.status)))
  {
    var es := CloseEvents(o.resp, o.textOnly, v);
    var closed := Open(o.(closing := TextClosed));
    if o.textOnly {
      assert es == [es[0], es[1]];
      AdvanceTwo(Open(o), es[0], es[1]);
      assert Advance(Open(o), es[0]) == closed;
    } else {
      assert es == [es[0], es[1], es[2]];
      AdvanceThree(Open(o), es[0], es[1], es[2]);
      assert Advance(Open(o), es[0]) == Open(o.(closing := AudioClosed));
      assert Advance(Open(o.(closing := AudioClosed)), es[1]) == closed;
    }
    assert Advance(closed, OutputItemDone(o.resp, v)) == Open(o.(closing := ItemClosed(v.status)));
  }

  // The end of a response that has no message item.
  lemma EmptyDoneParses(o: Running, status: ResponseStatus, reason: StatusReason, output: seq<ItemView>)
    requires Quiet(o) && o.msg == 0 && |output| <= 1 && !status.ResponseInProgress?
    ensures AdvanceAll(Open(o), [ResponseDone(o.resp, status, reason, output)]) == Idle(o.resp)
  {
    AdvanceOne(Open(o), ResponseDone(o.resp, status, reason, output));
  }

  // The end of a response with its message item.
  lemma DoneParses(o: Running, v: ItemView, status: ResponseStatus, reason: StatusReason, output: seq<ItemView>)
    requires Quiet(o) && o.msg != 0 && Summarizes(o, v) && !status.ResponseInProgress?
    requires v.status.Completed? <==> status.ResponseCompleted?
    requires 1 <= |output| <= 2 && output[0].ref == o.msg
    ensures AdvanceAll(Open(o), CloseEvents(o.resp, o.textOnly, v) + [ResponseDone(o.resp, status, reason, output)])
         == Idle(o.resp)
  {
    var done := ResponseDone(o.resp, status, reason, output);
    var closed := Open(o.(closing := ItemClosed(v.status)));
    CloseParses(o, v);
    AdvanceAppend(Open(o), CloseEvents(o.resp, o.textOnly, v), [done]);
    AdvanceOne(closed, done);
    assert Advance(closed, done) == Idle(o.resp);
  }

  // ---- what a legal trace means, event by event -----------------------------------------------

  lemma {:induction false} LegalPrefix(trace: seq<Event>, n: nat)
    requires Legal(trace) && n <= |trace|
    ensures Legal(trace[..n])
    decreases |trace|
  {
    if n == |trace| {
      assert trace[..n] == trace;
    } else {
      var front := trace[..|trace| - 1];
      LegalPrefix(front, n);
      assert front[..n] == trace[..n];
    }
  }

  // The parse that event i of a legal trace met.
  function Before(trace: seq<Event>, i: nat): Parse
    requires i < |trace|
  {
    ParseAll(trace[..i])
  }

  lemma StepIsLegal(trace: seq<Event>, i: nat)
    requires Legal(trace) && i < |trace|
    ensures !Before(trace, i).Reject? && !Advance(Before(trace, i), trace[i]).Reject?
    ensures ParseAll(trace[..i + 1]) == Advance(Before(trace, i), trace[i])
  {
    hide Advance;
    LegalPrefix(trace, i + 1);
    LegalPrefix(trace, i);
    assert trace[..i + 1] == trace[..i] + [trace[i]];
    ParseSnoc(trace[..i], trace[i]);
  }

  // The ref of the latest response opened by a parse.
  function LatestRef(p: Parse): ResponseRef {
    match p
    case Idle(last) => last
    case Open(o) => o.resp
    case Reject => 0
  }

  // p is done with response ref: idle after it, or in a later one.
  predicate Past(p: Parse, ref: ResponseRef) {
    match p
    case Idle(last) => last >= ref
    case Open(o) => o.resp > ref
    case Reject => false
  }

  // ---- single steps ---------------------------------------------------------------------------------

  lemma LatestGrows(p: Parse, e: Event)
    requires !Advance(p, e).Reject?
    ensures LatestRef(p) <= LatestRef(Advance(p, e))
    ensures AboutResponse(e) ==> e.resp <= LatestRef(Advance(p, e))
  {
  }

  lemma CreatedMeetsIdle(p: Parse, e: Event)
    requires e.ResponseCreated? && !Advance(p, e).Reject?
    ensures p.Idle? && e.resp > p.last && Advance(p, e) == Open(Opened(e.resp, e.textOnly))
  {
  }

  lemma DoneClosesItsOwn(p: Parse, e: Event)
    requires e.ResponseDone? && !Advance(p, e).Reject?
    ensures p.Open? && p.run.resp == e.resp && Advance(p, e) == Idle(e.resp)
  {
  }

  lemma StepStaysPast(p: Parse, e: Event, ref: ResponseRef)
    requires Past(p, ref) && !Advance(p, e).Reject?
    ensures Past(Advance(p, e), ref)
    ensures AboutResponse(e) ==> e.resp > ref
  {
  }

  lemma OpenGoesOn(o: Running, e: Event)
    requires !Advance(Open(o), e).Reject?
    ensures if Advance(Open(o), e).Open? then Advance(Open(o), e).run.resp == o.resp
            else e.ResponseDone? && e.resp == o.resp
  {
  }

  // ---- whole traces ----------------------------------------------------------------------------------

  lemma {:induction false} RefsGrow(trace: seq<Event>, i: nat, j: nat)
    requires Legal(trace) && i <= j <= |trace|
    ensures LatestRef(ParseAll(trace[..i])) <= LatestRef(ParseAll(trace[..j]))
    decreases j - i
  {
    hide Advance;
    hide ParseAll;
    hide Legal;
    if i < j {
      RefsGrow(trace, i, j - 1);
      StepIsLegal(trace, j - 1);
      LatestGrows(Before(trace, j - 1), trace[j - 1]);
    }
  }

  // In a legal trace response refs strictly increase, a response is created
  // only when none is open, and nothing about a response follows its done.
  lemma ResponsesAreSerial(trace: seq<Event>, i: nat, j: nat)
    requires Legal(trace) && i < j < |trace|
    ensures trace[i].ResponseCreated? && trace[j].ResponseCreated? ==>
              trace[i].resp < trace[j].resp
              && exists k :: i < k < j && trace[k].ResponseDone? && trace[k].resp == trace[i].resp
    ensures trace[i].ResponseDone? && AboutResponse(trace[j]) ==> trace[j].resp > trace[i].resp
  {
    hide Advance;
    hide ParseAll;
    hide Legal;
    hide AboutResponse;
    if trace[i].ResponseDone? && AboutResponse(trace[j]) {
      AfterDone(trace, i, j);
    }
    if trace[i].ResponseCreated? && trace[j].ResponseCreated? {
      StepIsLegal(trace, i);
      CreatedMeetsIdle(Before(trace, i), trace[i]);
      StepIsLegal(trace, j);
      CreatedMeetsIdle(Before(trace, j), trace[j]);
      RefsGrow(trace, i + 1, j);
      ClosedBetween(trace, i + 1, j, trace[i].resp);
    }
  }

  lemma {:induction false} StaysPast(trace: seq<Event>, i: nat, j: nat, ref: ResponseRef)
    requires Legal(trace) && i <= j <= |trace| && Past(ParseAll(trace[..i]), ref)
    ensures Past(ParseAll(trace[..j]), ref)
    decreases j - i
  {
    hide Advance;
    hide ParseAll;
    hide Legal;
    if i < j {
      StaysPast(trace, i, j - 1, ref);
      StepIsLegal(trace, j - 1);
      StepStaysPast(Before(trace, j - 1), trace[j - 1], ref);
    }
  }

  lemma AfterDone(trace: seq<Event>, i: nat, j: nat)
    requires Legal(trace) && i < j < |trace| && trace[i].ResponseDone? && AboutResponse(trace[j])
    ensures trace[j].resp > trace[i].resp
  {
    hide Advance;
    hide ParseAll;
    hide Legal;
    StepIsLegal(trace, i);
    DoneClosesItsOwn(Before(trace, i), trace[i]);
    StaysPast(trace, i + 1, j, trace[i].resp);
    StepIsLegal(trace, j);
    StepStaysPast(Before(trace, j), trace[j], trace[i].resp);
  }

  lemma {:induction false} ClosedBetween(trace: seq<Event>, i: nat, j: nat, ref: ResponseRef)
    requires Legal(trace) && i <= j < |trace|
    requires ParseAll(trace[..i]).Open? && ParseAll(trace[..i]).run.resp == ref
    requires ParseAll(trace[..j]).Idle?
    ensures exists k :: i <= k < j && trace[k].ResponseDone? && trace[k].resp == ref
    decreases j - i
  {
    hide Advance;
    hide ParseAll;
    hide Legal;
    StepIsLegal(trace, i);
    OpenGoesOn(ParseAll(trace[..i]).run, trace[i]);
    if ParseAll(trace[..i + 1]).Open? {
      ClosedBetween(trace, i + 1, j, ref);
    }
  }

  // ---- truncation ---------------------------------------------------------------------------------------

  // The client has been told that item ref was cut short.
  ghost predicate WasTruncated(trace: seq<Event>, ref: ItemRef) {
    exists i :: 0 <= i < |trace| && trace[i].ItemTruncated? && trace[i].item == ref
  }
}
