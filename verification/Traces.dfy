// What a legal trace tells a client, read off its events without the grammar
// (internal/session/session.go:1162-1359).
module Traces {
  import opened Utf8
  import opened Conversations
  import opened Events
  import opened Grammar

  // The text deltas of response resp, concatenated.
  function Deltas(trace: seq<Event>, resp: ResponseRef): Text {
    if trace == [] then [] else
      var e := trace[|trace| - 1];
      Deltas(trace[..|trace| - 1], resp)
      + (if (e.OutputTextDelta? || e.OutputTranscriptDelta?) && e.resp == resp then e.delta else [])
  }

  // The bytes of audio of response resp.
  function AudioBytes(trace: seq<Event>, resp: ResponseRef): nat {
    if trace == [] then 0 else
      var e := trace[|trace| - 1];
      AudioBytes(trace[..|trace| - 1], resp) + (if e.OutputAudioDelta? && e.resp == resp then |e.pcm| else 0)
  }

  // Response resp's message item is added before position n.
  ghost predicate MessageAdded(trace: seq<Event>, n: nat, resp: ResponseRef, item: ItemRef) {
    exists i :: 0 <= i < n && i < |trace| && trace[i].OutputItemAdded? && trace[i].resp == resp
      && trace[i].view.ref == item
      && !trace[i].view.content.ToolCallContent?
  }

  // No response later than the last one of p has any delta yet.
  lemma {:induction false} NothingAhead(trace: seq<Event>, resp: ResponseRef)
    requires Legal(trace) && resp > LatestRef(ParseAll(trace))
    ensures Deltas(trace, resp) == [] && AudioBytes(trace, resp) == 0
    decreases |trace|
  {
    if trace != [] {
      var front := trace[..|trace| - 1];
      LegalPrefix(trace, |trace| - 1);
      LatestGrows(ParseAll(front), trace[|trace| - 1]);
      NothingAhead(front, resp);
    }
  }

  // What the parse keeps is what the events say.
  ghost predicate Faithful(trace: seq<Event>, o: Running) {
    && o.text == Deltas(trace, o.resp) && o.bytes == AudioBytes(trace, o.resp)
    && (o.msg != 0 ==> MessageAdded(trace, |trace|, o.resp, o.msg))
    && (o.truncated ==> o.msg != 0 && WasTruncated(trace, o.msg))
    && (!o.closing.Streaming? ==> o.msg != 0)
  }

  lemma {:induction false} ParseIsFaithful(trace: seq<Event>)
    requires ParseAll(trace).Open?
    ensures Faithful(trace, ParseAll(trace).run)
    decreases |trace|
  {
    hide Advance;
    var front, e := trace[..|trace| - 1], trace[|trace| - 1];
    LegalPrefix(trace, |trace| - 1);
    var p := ParseAll(front);
    if p.Open? {
      ParseIsFaithful(front);
      FaithfulStep(trace, p.run);
    } else {
      FaithfulStart(trace, p.last);
    }
  }

  lemma FaithfulStart(trace: seq<Event>, last: ResponseRef)
    requires trace != [] && ParseAll(trace[..|trace| - 1]) == Idle(last) && ParseAll(trace).Open?
    ensures Faithful(trace, ParseAll(trace).run)
  {
    var front := trace[..|trace| - 1];
    NothingAhead(front, trace[|trace| - 1].resp);
  }

  lemma FaithfulStep(trace: seq<Event>, o: Running)
    requires trace != [] && ParseAll(trace[..|trace| - 1]) == Open(o) && ParseAll(trace).Open?
    requires Faithful(trace[..|trace| - 1], o)
    ensures Faithful(trace, ParseAll(trace).run)
  {
    hide ParseAll;
    var front, e := trace[..|trace| - 1], trace[|trace| - 1];
    var o' := ParseAll(trace).run;
    assert Advance(Open(o), e) == Open(o') by { assert ParseAll(trace) == Advance(Open(o), e) by { ParseLast(trace); } }
    OpenStep(o, e);
    if o'.msg != 0 {
      if o.msg != 0 {
        var i :| 0 <= i < |front| && front[i].OutputItemAdded? && front[i].resp == o.resp && front[i].view.ref == o.msg
          && !front[i].view.content.ToolCallContent?;
        assert trace[i] == front[i];
      } else {
        assert trace[|trace| - 1] == e;
      }
    }
    if o'.truncated {
      if o.truncated {
        var i :| 0 <= i < |front| && front[i].ItemTruncated? && front[i].item == o.msg;
        assert trace[i] == front[i];
      } else {
        assert trace[|trace| - 1] == e;
      }
    }
  }

  lemma ParseLast(trace: seq<Event>)
    requires trace != []
    ensures ParseAll(trace) == Advance(ParseAll(trace[..|trace| - 1]), trace[|trace| - 1])
  {
  }

  // How an event moves the open response on.
  lemma OpenStep(o: Running, e: Event)
    requires Advance(Open(o), e).Open?
    ensures var o' := Advance(Open(o), e).run;
            && o'.resp == o.resp
            && o'.text == o.text + (if e.OutputTextDelta? || e.OutputTranscriptDelta? then e.delta else [])
            && o'.bytes == o.bytes + (if e.OutputAudioDelta? then |e.pcm| else 0)
            && (AboutResponse(e) ==> e.resp == o.resp)
            && (o.msg != 0 ==> o'.msg == o.msg)
            && (!o'.closing.Streaming? ==> !o.closing.Streaming? || o.msg != 0)
            && (o.msg == 0 && o'.msg != 0 ==>
                  e.OutputItemAdded? && e.resp == o.resp && e.view.ref == o'.msg && !e.view.content.ToolCallContent?)
            && (o'.truncated ==> o'.truncated == o.truncated || (e.ItemTruncated? && o.msg != 0 && e.item == o.msg))
  {
  }

  // In a legal trace every delta names the open response and its message item,
  // which was added before it.
  lemma DeltasFollowTheirItem(trace: seq<Event>, i: nat)
    requires Legal(trace) && i < |trace|
    requires trace[i].OutputTextDelta? || trace[i].OutputTranscriptDelta? || trace[i].OutputAudioDelta?
    ensures MessageAdded(trace, i, trace[i].resp, trace[i].item)
    ensures ParseAll(trace[..i]).Open? && ParseAll(trace[..i]).run.resp == trace[i].resp
  {
    StepIsLegal(trace, i);
    ParseIsFaithful(trace[..i]);
    var o := ParseAll(trace[..i]).run;
    var k :| 0 <= k < i && trace[..i][k].OutputItemAdded? && trace[..i][k].resp == o.resp
             && trace[..i][k].view.ref == o.msg
      && !trace[..i][k].view.content.ToolCallContent?;
    assert trace[k] == trace[..i][k];
  }

  // In a legal trace a message item that is done says exactly the text of the
  // deltas before it, and its audio is their bytes at 48 a millisecond, unless
  // the item was truncated meanwhile.
  lemma DoneSaysTheDeltas(trace: seq<Event>, i: nat)
    requires Legal(trace) && i < |trace|
    requires trace[i].OutputItemDone? && !trace[i].view.content.ToolCallContent?
    ensures var e := trace[i];
            && MessageAdded(trace, i, e.resp, e.view.ref)
            && (WasTruncated(trace[..i], e.view.ref)
                || (e.view.text == Deltas(trace[..i], e.resp) && e.view.audioMs == AudioBytes(trace[..i], e.resp) / 48))
  {
    StepIsLegal(trace, i);
    var o := ParseAll(trace[..i]).run;
    ParseIsFaithful(trace[..i]);
    DoneMeets(o, trace[i]);
    var k :| 0 <= k < i && trace[..i][k].OutputItemAdded? && trace[..i][k].resp == o.resp
             && trace[..i][k].view.ref == o.msg
      && !trace[..i][k].view.content.ToolCallContent?;
    assert trace[k] == trace[..i][k];
  }

  lemma DoneMeets(o: Running, e: Event)
    requires !Advance(Open(o), e).Reject? && e.OutputItemDone? && !e.view.content.ToolCallContent?
    ensures e.resp == o.resp && Summarizes(o, e.view)
            && (o.closing.TextClosed? && !o.tool.ToolAdded? && !o.tool.ToolArguments?)
  {
  }

  // A tool call is delivered in one piece: in a legal trace the call's added is
  // followed at once by its arguments and its done, as far as the trace goes.
  lemma CallsAreContiguous(trace: seq<Event>, i: nat)
    requires Legal(trace) && i < |trace| && trace[i].OutputItemAdded? && trace[i].view.content.ToolCallContent?
    ensures i + 1 < |trace| ==>
              && trace[i + 1].ToolCallArguments? && trace[i + 1].resp == trace[i].resp
              && trace[i + 1].item == trace[i].view.ref
    ensures i + 2 < |trace| ==>
              trace[i + 2].OutputItemDone? && trace[i + 2].resp == trace[i].resp
              && trace[i + 2].view.ref == trace[i].view.ref && trace[i + 2].view.status.Completed?
  {
    hide ParseAll;
    StepIsLegal(trace, i);
    if i + 1 < |trace| {
      StepIsLegal(trace, i + 1);
      if i + 2 < |trace| {
        StepIsLegal(trace, i + 2);
      }
    }
  }

  // Response resp has its call (or its message item) behind it.
  predicate Has(p: Parse, resp: ResponseRef, call: bool) {
    match p
    case Idle(last) => last >= resp
    case Open(o) => o.resp > resp || (o.resp == resp && if call then !o.tool.NoTool? else o.msg != 0)
    case Reject => false
  }

  lemma HasStays(p: Parse, e: Event, resp: ResponseRef, call: bool)
    requires Has(p, resp, call) && !Advance(p, e).Reject?
    ensures Has(Advance(p, e), resp, call)
  {
  }

  lemma {:induction false} HasThroughout(trace: seq<Event>, i: nat, j: nat, resp: ResponseRef, call: bool)
    requires Legal(trace) && i <= j < |trace| && Has(ParseAll(trace[..i]), resp, call)
    ensures Has(ParseAll(trace[..j]), resp, call)
    decreases j - i
  {
    hide Advance;
    hide Has;
    if i < j {
      StepIsLegal(trace, i);
      HasStays(ParseAll(trace[..i]), trace[i], resp, call);
      HasThroughout(trace, i + 1, j, resp, call);
    }
  }

  // A response has at most one call and at most one message item.
  lemma AtMostOneOfEach(trace: seq<Event>, i: nat, j: nat)
    requires Legal(trace) && i < j < |trace| && trace[i].OutputItemAdded? && trace[j].OutputItemAdded?
    requires trace[i].view.content.ToolCallContent? <==> trace[j].view.content.ToolCallContent?
    ensures trace[i].resp != trace[j].resp
  {
    var call := trace[i].view.content.ToolCallContent?;
    StepIsLegal(trace, i);
    HasThroughout(trace, i + 1, j, trace[i].resp, call);
    StepIsLegal(trace, j);
  }
}
