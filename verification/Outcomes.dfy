// With what status a response ends, and what its response.done lists
// (internal/session/response.go:61-84, internal/session/session.go:1244-1334).
module Outcomes {
  import opened Utf8
  import opened Conversations
  import opened Events
  import opened Grammar
  import opened Actor
  import opened ActorInvariants
  import opened PipeLog
  import opened PipeInvariants
  import opened Gateway
  import opened SessionRuns
  import Turns

  // What response.done lists: the message item, if there is one, then the call.
  function Listed(c: Conversation, r: Response): seq<ItemRef> {
    (if r.item != 0 then [r.item] else []) + (if r.toolItem in c.index then [r.toolItem] else [])
  }

  ghost predicate Lists(output: seq<ItemView>, refs: seq<ItemRef>, c: Conversation) {
    && |output| == |refs|
    && forall i :: 0 <= i < |refs| ==> refs[i] in c.index && output[i] == c.index[refs[i]].view
  }

  // The active response of st has been given up: its message item is closed, nothing
  // else in the conversation changes, and response.done, the last event emitted, says
  // how it ended and lists its items.
  ghost predicate DoneTold(st: State, st': State, status: ResponseStatus, reason: StatusReason)
    requires st.active.Some?
  {
    var r := st.active.value;
    && st'.active.None? && !st'.asrWait && !st'.turn.responseActive && st'.activeGen == st.activeGen + 1
    && st'.nextResp == st.nextResp && st'.conv.items == st.conv.items
    && st.trace < st'.trace
    && (var done := st'.trace[|st'.trace| - 1];
        && done.ResponseDone? && done.resp == r.ref && done.status == status && done.reason == reason
        && Lists(done.output, Listed(st.conv, r), st'.conv))
    && (r.item != 0 ==>
          && r.item in st.conv.index && r.item in st'.conv.index
          && var told := st'.conv.index[r.item];
             && told == st.conv.index[r.item].(view := st.conv.index[r.item].view.(status := told.view.status))
             && told.view.status == if status.ResponseCompleted? then Completed else Incomplete)
    && (forall ref :: ref != r.item && ref in st.conv.index ==>
          ref in st'.conv.index && st'.conv.index[ref] == st.conv.index[ref])
  }

  lemma FinishTells(st: State, status: ResponseStatus, reason: StatusReason)
    requires ActorInv(st) && st.active.Some?
    ensures DoneTold(st, FinishResponse(st, status, reason), status, reason)
  {
    hide CloseEvents;
    hide Turns.EndsSentence;
    hide ActorInv;
    ItemsOfResponse(st);
  }

  // What the invariant says of the response's items.
  lemma ItemsOfResponse(st: State)
    requires ActorInv(st) && st.active.Some?
    ensures var r := st.active.value;
            && r.status.ResponseInProgress? && (r.item != 0 <==> r.item in st.conv.index)
            && (r.item != 0 ==> st.conv.index[r.item].view.ref == r.item)
  {
    hide ParseAll;
    hide TimerInv;
  }

  // ---- completion ------------------------------------------------------------------------------------------

  // The response with what ev says of its progress.
  function Flagged(r: Response, ev: PipeEvent): Response {
    if ev.PipeLlmDone? then r.(llmDone := true, finish := ev.finish)
    else r.(ttsDone := true, audioFlushed := true)
  }

  lemma OnlyDoneEnds(st: State, ev: PipeEvent)
    requires Fresh(st, ev) && !ev.PipeError? && OnPipeEvent(st, ev).active.None?
    ensures ev.PipeLlmDone? || ev.PipeTtsDone?
    ensures OnPipeEvent(st, ev) == MaybeComplete(st.(active := Some(Flagged(st.active.value, ev))))
    ensures Flagged(st.active.value, ev).llmDone
  {
    hide FinishResponse;
    hide EnsureOutputItem;
    hide AppendItem;
    hide WithText;
    hide WithAudio;
  }

  // A fact that is no error and ends the response: the LLM is done, and how it
  // finished is what the client is told.
  lemma EndingTells(st: State, ev: PipeEvent)
    requires ActorInv(st) && Fresh(st, ev) && !ev.PipeError? && OnPipeEvent(st, ev).active.None?
    ensures ev.PipeLlmDone? || (ev.PipeTtsDone? && st.active.value.llmDone)
    ensures var st' := OnPipeEvent(st, ev);
            match if ev.PipeLlmDone? then ev.finish else st.active.value.finish
            case FinishStop => DoneTold(st, st', ResponseCompleted, NoReason)
            case FinishLength => DoneTold(st, st', ResponseIncomplete, MaxOutputTokens)
            case FinishContentFilter => DoneTold(st, st', ResponseIncomplete, ContentFilter)
  {
    hide ActorInv;
    hide FinishResponse;
    hide DoneTold;
    hide OnPipeEvent;
    OnlyDoneEnds(st, ev);
    var r' := Flagged(st.active.value, ev);
    var (status, reason) := Outcome(r');
    RunningIsInProgress(st);
    FinishIgnoresFlags(st, r', status, reason);
    FinishTells(st, status, reason);
  }

  // A response that completes is reported as its LLM stage said it finished: as
  // completed if and only if it stopped by itself, as incomplete for the token limit
  // if and only if it ran into that, and for the content filter likewise.
  lemma CompletionReportsFinish(s: System, isLetter: Rune -> bool)
    requires Reachable(s, isLetter) && Completes(s)
    ensures s.pipes != []
    ensures var st' := OnPipeEvent(s.actor, s.queue[0]);
            match FinishIn(LastPipe(s).log)
            case Some(FinishStop) => DoneTold(s.actor, st', ResponseCompleted, NoReason)
            case Some(FinishLength) => DoneTold(s.actor, st', ResponseIncomplete, MaxOutputTokens)
            case Some(FinishContentFilter) => DoneTold(s.actor, st', ResponseIncomplete, ContentFilter)
            case None => false
  {
    hide SysInv;
    hide ActorInv;
    hide Progress;
    hide OnPipeEvent;
    hide DoneTold;
    hide FinishIn;
    hide Coherent;
    hide LlmOver;
    ReachableIsSound(s, isLetter);
    CompletionIsDone(s);
    HeadIsInLog(s);
    ToldBy(s);
    ActorHolds(s);
    EndingTells(s.actor, s.queue[0]);
    FinishOf(s);
    var p := LastPipe(s);
    var all := s.received + [s.queue[0]];
    assert p.log[..|all|] == all;
    LogIsComplete(p.log, |all|, p.sender, !p.stopped);
  }

  // How the LLM finished, as far as the actor has heard with the next fact.
  lemma FinishOf(s: System)
    requires SysInv(s) && s.queue != [] && IsRunning(s.actor)
    ensures var ev := s.queue[0];
            var r := s.actor.active.value;
            && (ev.PipeLlmDone? ==> FinishIn(s.received + [ev]) == Some(ev.finish))
            && (!ev.PipeLlmDone? && r.llmDone ==> FinishIn(s.received + [ev]) == Some(r.finish))
  {
    hide SysInv;
    ProgressHolds(s);
    Snoc(s.received, s.queue[0]);
  }

  // A provider's failure fails the response, and the client hears of both.
  lemma ErrorFails(st: State, ev: PipeEvent)
    requires ActorInv(st) && Fresh(st, ev) && ev.PipeError?
    ensures DoneTold(Emit(st, ErrorEvent(ProviderError, false)), OnPipeEvent(st, ev), ResponseFailed, NoReason)
  {
    hide ActorInv;
    hide FinishResponse;
    hide DoneTold;
    hide Good;
    ErrorKeeps(st, ProviderError);
    GoodIsSound(st, EmitError(st, ProviderError));
    FinishTells(EmitError(st, ProviderError), ResponseFailed, NoReason);
  }

  lemma GoodIsSound(st: State, st': State)
    requires Good(st, st')
    ensures ActorInv(st')
  {
    hide ActorInv;
    hide Evolves;
  }

  // No response is kept open once nothing is missing any more.
  lemma NoneLingers(s: System, isLetter: Rune -> bool)
    requires Reachable(s, isLetter) && IsRunning(s.actor) && LlmOver(s.received)
    ensures !s.actor.active.value.textOnly && Spoke(s.received) && !TtsOver(s.received)
  {
    hide ParseAll;
    hide PipesInv;
    hide ItemsFit;
    hide Reachable;
    ReachableIsSound(s, isLetter);
  }

  // ---- cancellation ------------------------------------------------------------------------------------------

  // The client cancels the response it names, or whichever is active; anything else
  // is refused and changes nothing.
  lemma CancelTells(st: State, resp: ResponseRef, io: Io)
    requires ActorInv(st)
    ensures var st' := OnCommand(st, CancelResponse(resp), io);
            if st.active.Some? && (resp == 0 || resp == st.active.value.ref)
            then DoneTold(st, st', ResponseCancelled, ClientCancelled)
            else st' == Emit(st, ErrorEvent(CancelNotActive, false))
  {
    hide ActorInv;
    hide FinishResponse;
    hide DoneTold;
    if st.active.Some? { FinishTells(st, ResponseCancelled, ClientCancelled); }
  }

  // The end of the session cancels the open response, and session closed is the very
  // last event.
  lemma CleanupTells(st: State)
    requires ActorInv(st)
    ensures var st' := Cleanup(st);
            && st'.cancelled && st'.trace != [] && st'.trace[|st'.trace| - 1] == SessionClosed
            && (st.active.None? ==> st'.trace == st.trace + [SessionClosed])
            && (st.active.Some? ==>
                  exists st1 :: DoneTold(st, st1, ResponseCancelled, NoReason)
                                && st'.trace == st1.trace + [SessionClosed])
  {
    hide ActorInv;
    hide FinishResponse;
    hide DoneTold;
    if st.active.Some? {
      FinishTells(st, ResponseCancelled, NoReason);
      assert DoneTold(st, FinishResponse(st, ResponseCancelled, NoReason), ResponseCancelled, NoReason);
    }
  }
}
