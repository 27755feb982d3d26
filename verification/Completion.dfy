// No response is ever stuck: from every reachable state of a live session some steps of
// its own stages and the delivery of what they send end the response that is active
// (internal/session/pipeline.go:62-259, internal/session/session.go:1020-1036, 1162-1285).
module Completion {
  import opened Audio
  import opened Utf8
  import opened Events
  import opened Actor
  import opened ActorInvariants
  import opened PipeLog
  import opened PipeInvariants
  import opened Pipelines
  import opened ProviderRuns
  import opened Gateway
  import opened SessionRuns
  import Conversations
  import Grammar
  import Sentences

  // ---- the stages go on ----------------------------------------------------------------------------------------

  function StageSteps(i: nat, actions: seq<Action>): seq<Step> {
    if actions == [] then [] else [Stage(i, actions[0])] + StageSteps(i, actions[1..])
  }

  ghost predicate Unstopped(actions: seq<Action>) {
    forall k :: 0 <= k < |actions| ==> !IsStop(actions[k])
  }

  lemma OneStage(s: System, isLetter: Rune -> bool, i: nat, a: Action)
    requires SysInv(s) && i < |s.pipes| && Sentences.WellFormed(s.pipes[i].splitter)
    requires Enabled(s.pipes[i], a) && !IsStop(a)
    ensures MayStep(s, Stage(i, a))
    ensures var s' := Take(s, isLetter, Stage(i, a));
            && SysInv(s') && Sentences.WellFormed(Act(isLetter, s.pipes[i], a).splitter)
            && s' == s.(pipes := s.pipes[i := Act(isLetter, s.pipes[i], a)], queue := s'.queue)
  {
    hide SysInv;
    hide Act;
    hide Enabled;
    hide Sent;
    hide Sentences.WellFormed;
    StageKeeps(s, isLetter, i, a);
    StaysWellFormed(isLetter, s.pipes[i], a);
  }

  lemma {:induction false} StagesGoOn(s: System, isLetter: Rune -> bool, i: nat, actions: seq<Action>)
    requires SysInv(s) && i < |s.pipes| && Sentences.WellFormed(s.pipes[i].splitter)
    requires MayAct(isLetter, s.pipes[i], actions) && Unstopped(actions)
    ensures MayRun(s, isLetter, StageSteps(i, actions))
    ensures var s' := Run(s, isLetter, StageSteps(i, actions));
            && SysInv(s')
            && s' == s.(pipes := s.pipes[i := ActAll(isLetter, s.pipes[i], actions)], queue := s'.queue)
    decreases |actions|
  {
    hide SysInv;
    hide Act;
    hide Enabled;
    hide MayStep;
    hide Take;
    hide Sentences.WellFormed;
    if actions == [] {
      assert s.pipes == s.pipes[i := s.pipes[i]];
    } else {
      OneStage(s, isLetter, i, actions[0]);
      var s1 := Take(s, isLetter, Stage(i, actions[0]));
      assert Unstopped(actions[1..]);
      StagesGoOn(s1, isLetter, i, actions[1..]);
      assert StageSteps(i, actions) == [Stage(i, actions[0])] + StageSteps(i, actions[1..]);
      assert StageSteps(i, actions)[1..] == StageSteps(i, actions[1..]);
    }
  }

  // ---- what has been sent is delivered ------------------------------------------------------------------------------

  // The session is live.
  predicate Live(s: System) {
    !s.closed && !s.over && !s.actor.cancelled
  }

  predicate Failing(s: System) {
    exists k :: 0 <= k < |s.queue| && s.queue[k].PipeError? && s.queue[k].gen == s.actor.activeGen
  }

  // All the running response needs has been sent, or a failure.
  predicate Deciding(s: System) {
    && IsRunning(s.actor) && s.pipes != []
    && (Failing(s) || (LlmOver(LastPipe(s).log) && (LastPipe(s).sender.textOnly || TtsOver(LastPipe(s).log))))
  }

  function Deliveries(n: nat): seq<Step> {
    if n == 0 then [] else [Deliver] + Deliveries(n - 1)
  }

  // With nothing left to deliver, all that was sent has been taken in.
  lemma NothingLeft(s: System)
    requires SysInv(s) && Deciding(s)
    ensures s.queue != []
  {
    hide ActorInv;
    hide PipesInv;
    hide ItemsFit;
    hide LlmOver;
    hide TtsOver;
    if s.queue == [] {
      assert LastPipe(s).log == s.received;
      DoneEnds(s.actor);
    }
  }

  // A running response still needs something.
  lemma DoneEnds(st: State)
    requires ActorInv(st) && IsRunning(st) && st.active.value.llmDone
    ensures !st.active.value.textOnly && !st.active.value.ttsDone
  {
    hide ItemsInv;
  }

  lemma OneDelivery(s: System, isLetter: Rune -> bool)
    requires SysInv(s) && Live(s) && Deciding(s) && s.queue != []
    ensures MayStep(s, Deliver)
    ensures var s' := Take(s, isLetter, Deliver);
            && SysInv(s') && |s'.queue| == |s.queue| - 1
            && (s'.actor.active.None? || (Live(s') && Deciding(s')))
  {
    hide SysInv;
    hide OnPipeEvent;
    hide Good;
    hide ActorInv;
    hide Recorded;
    hide Timings;
    hide OthersKept;
    var ev := s.queue[0];
    DeliverKeeps(s, isLetter);
    FreshIsAddressed(s);
    ActorHolds(s);
    OnPipeEventKeeps(s.actor, ev);
    StaysLive(s.actor, ev);
    if Fresh(s.actor, ev) && ev.PipeError? {
      ErrorEnds(s.actor, ev);
    } else if Failing(s) {
      var k :| 0 <= k < |s.queue| && s.queue[k].PipeError? && s.queue[k].gen == s.actor.activeGen;
      assert s.queue[k] == s.queue[1..][k - 1];
    }
  }

  lemma StaysLive(st: State, ev: PipeEvent)
    ensures OnPipeEvent(st, ev).cancelled == st.cancelled
  {
    hide FinishResponse;
    hide MaybeComplete;
    hide AddText;
    hide AddAudio;
    hide DeliverToolCall;
    if Fresh(st, ev) {
      var r := st.active.value;
      match ev
      case PipeTextDelta(_, resp, delta) => TextStaysLive(st, true, resp, delta);
      case PipeTranscriptDelta(_, resp, delta) => TextStaysLive(st, false, resp, delta);
      case PipeAudioDelta(_, resp, pcm) => AudioStaysLive(st, resp, pcm);
      case PipeToolCall(_, call) => CallStaysLive(st, call);
      case PipeLlmDone(_, finish) => CompletionStaysLive(st.(active := Some(r.(llmDone := true, finish := finish))));
      case PipeTtsDone(_) => CompletionStaysLive(st.(active := Some(r.(ttsDone := true, audioFlushed := true))));
      case PipeError(_, _) => FinishStaysLive(EmitError(st, ProviderError), ResponseFailed, NoReason);
      case _ =>
    }
  }

  lemma TextStaysLive(st: State, textOnly: bool, resp: ResponseRef, delta: Text)
    requires st.active.Some?
    ensures AddText(st, textOnly, resp, delta).cancelled == st.cancelled
  {
    hide EnsureOutputItem;
    hide Conversations.Update;
  }

  lemma AudioStaysLive(st: State, resp: ResponseRef, pcm: Bytes)
    requires st.active.Some?
    ensures AddAudio(st, resp, pcm).cancelled == st.cancelled
  {
    hide EnsureOutputItem;
    hide Conversations.Update;
  }

  lemma CallStaysLive(st: State, call: Conversations.ToolCall)
    requires st.active.Some?
    ensures DeliverToolCall(st, call).cancelled == st.cancelled
  {
    hide Conversations.Update;
    hide Conversations.AppendItem;
  }

  lemma CompletionStaysLive(st: State)
    requires st.active.Some?
    ensures MaybeComplete(st).cancelled == st.cancelled
  {
    hide FinishResponse;
    var (status, reason) := Outcome(st.active.value);
    FinishStaysLive(st, status, reason);
  }

  lemma FinishStaysLive(st: State, status: ResponseStatus, reason: StatusReason)
    requires st.active.Some?
    ensures FinishResponse(st, status, reason).cancelled == st.cancelled
    ensures st.active.value.status.ResponseInProgress? ==> FinishResponse(st, status, reason).active.None?
  {
    hide Conversations.Update;
    hide Closed;
    hide Grammar.CloseEvents;
    hide Output;
  }

  lemma {:induction false} DeliveriesEnd(s: System, isLetter: Rune -> bool) returns (n: nat)
    requires SysInv(s) && Live(s) && Deciding(s)
    ensures MayRun(s, isLetter, Deliveries(n))
    ensures Run(s, isLetter, Deliveries(n)).actor.active.None?
    decreases |s.queue|
  {
    hide SysInv;
    hide MayStep;
    hide Take;
    hide Deciding;
    hide Live;
    NothingLeft(s);
    OneDelivery(s, isLetter);
    var s1 := Take(s, isLetter, Deliver);
    var more: nat := 0;
    if !s1.actor.active.None? { more := DeliveriesEnd(s1, isLetter); }
    n := more + 1;
    assert Deliveries(n)[1..] == Deliveries(more);
  }

  // ---- every response can end -------------------------------------------------------------------------------------

  // Its providers have not failed without saying so.
  predicate Going(p: Pipe) {
    && (LlmOver(p.log) || !p.llm.LlmEnded?)
    && (p.sender.textOnly || TtsOver(p.log) || !p.tts.TtsEnded?)
  }

  // A running response ends by steps of its own stages and deliveries alone.
  lemma RunningCanEnd(s: System, isLetter: Rune -> bool) returns (steps: seq<Step>)
    requires SysInv(s) && Live(s) && IsRunning(s.actor) && s.pipes != []
    requires Going(LastPipe(s)) || Failing(s)
    ensures MayRun(s, isLetter, steps) && Run(s, isLetter, steps).actor.active.None?
    ensures OwnSteps(steps, |s.pipes| - 1)
  {
    hide SysInv;
    hide ActAll;
    hide MayAct;
    hide IsRunning;
    hide LlmOver;
    hide TtsOver;
    hide MayRun;
    hide Run;
    var i := |s.pipes| - 1;
    if Failing(s) {
      var n := DeliveriesEnd(s, isLetter);
      steps := Deliveries(n);
      DeliveriesAreOwn(n, i);
    } else {
      PipesAreWellFormed(s, i);
      var actions := CanAlwaysEnd(isLetter, LastPipe(s));
      StagesGoOn(s, isLetter, i, actions);
      var s1 := Run(s, isLetter, StageSteps(i, actions));
      var n := DeliveriesEnd(s1, isLetter);
      RunAppend(s, isLetter, StageSteps(i, actions), Deliveries(n));
      steps := StageSteps(i, actions) + Deliveries(n);
      DeliveriesAreOwn(n, i);
      StagesAreOwn(i, actions);
    }
  }

  // Steps of pipeline i and deliveries only.
  predicate OwnSteps(steps: seq<Step>, i: int) {
    forall k :: 0 <= k < |steps|
      ==> steps[k].Deliver? || (steps[k].Stage? && steps[k].i == i && !IsStop(steps[k].action))
  }

  lemma {:induction false} DeliveriesAreOwn(n: nat, i: int)
    ensures OwnSteps(Deliveries(n), i)
  {
    if n > 0 { DeliveriesAreOwn(n - 1, i); }
  }

  lemma {:induction false} StagesAreOwn(i: nat, actions: seq<Action>)
    requires Unstopped(actions)
    ensures OwnSteps(StageSteps(i, actions), i)
  {
    if actions != [] {
      assert Unstopped(actions[1..]);
      StagesAreOwn(i, actions[1..]);
    }
  }

  // The transcript timer of a response that waits is armed; when it fires the response
  // fails or is started.
  lemma TimerFires(s: System, isLetter: Rune -> bool)
    requires Reachable(s, isLetter) && Live(s) && s.actor.active.Some? && !IsRunning(s.actor)
    ensures MayStep(s, Handle(TranscriptTimer))
    ensures var s1 := Take(s, isLetter, Handle(TranscriptTimer));
            && SysInv(s1) && Live(s1)
            && (s1.actor.active.Some? ==> IsRunning(s1.actor) && s1.pipes != [] && Going(LastPipe(s1)))
  {
    hide SysInv;
    hide OnTranscriptTimeout;
    ReachableIsSound(s, isLetter);
    WaitsAreBounded(s, isLetter);
    Gateway.StepKeeps(s, isLetter, Handle(TranscriptTimer));
    ActorHolds(s);
    TimeoutStarts(s.actor);
    PipesMatch(s);
  }

  lemma PipesMatch(s: System)
    requires SysInv(s)
    ensures |s.pipes| == |s.actor.launches|
  {
    hide ActorInv;
    hide RunInv;
    hide ItemsFit;
  }

  lemma TimeoutStarts(st: State)
    requires ActorInv(st) && st.active.Some? && st.active.value.awaiting
    ensures var st' := OnTranscriptTimeout(st);
            && st'.cancelled == st.cancelled
            && (st'.active.Some? ==>
                  IsRunning(st') && |st'.launches| == |st.launches| + 1 && st'.launches[..|st.launches|] == st.launches)
  {
    hide ItemsInv;
    hide JoinTranscript;
    hide Conversations.MessagesOf;
    hide FinishResponse;
    var st0 := StopAsrWait(st);
    FinishStaysLive(EmitError(st0, TranscriptTimeout), ResponseFailed, NoReason);
  }

  // No response is stuck. In every reachable state of a live session, unless one of
  // its providers has failed without saying so, the active response can still end: one
  // that runs by steps of its own stages and the delivery of what they send, one that
  // waits for its transcript by these once its timer has fired.
  lemma EveryResponseCanEnd(s: System, isLetter: Rune -> bool) returns (steps: seq<Step>, i: int)
    requires Reachable(s, isLetter) && Live(s) && s.actor.active.Some?
    requires IsRunning(s.actor) ==> s.pipes != [] && (Going(LastPipe(s)) || Failing(s))
    ensures MayRun(s, isLetter, steps) && Run(s, isLetter, steps).actor.active.None?
    ensures if IsRunning(s.actor) then OwnSteps(steps, i)
            else steps != [] && steps[0] == Handle(TranscriptTimer) && OwnSteps(steps[1..], i)
  {
    hide SysInv;
    hide MayStep;
    hide Take;
    hide OwnSteps;
    hide Going;
    hide Failing;
    hide Live;
    ReachableIsSound(s, isLetter);
    if IsRunning(s.actor) {
      i := |s.pipes| - 1;
      steps := RunningCanEnd(s, isLetter);
    } else {
      TimerFires(s, isLetter);
      var s1 := Take(s, isLetter, Handle(TranscriptTimer));
      i := |s1.pipes| - 1;
      var rest := [];
      if s1.actor.active.Some? { rest := RunningCanEnd(s1, isLetter); } else { DeliveriesAreOwn(0, i); }
      steps := [Handle(TranscriptTimer)] + rest;
      assert steps[1..] == rest;
    }
  }

  // ---- the stages of a response that is over -----------------------------------------------------------------------

  // The stop of a stage that has not ended.
  function NextStop(p: Pipe): Action
    requires !AllEnded(p)
  {
    if !p.llm.LlmEnded? then StopLlm else if !p.split.SplitEnded? then StopSplit else StopTts
  }

  function Unended(p: Pipe): nat {
    (if p.llm.LlmEnded? then 0 else 1) + (if p.split.SplitEnded? then 0 else 1) + (if p.tts.TtsEnded? then 0 else 1)
  }

  lemma OneStop(s: System, isLetter: Rune -> bool, i: nat)
    requires SysInv(s) && i < |s.pipes| && !AllEnded(s.pipes[i])
    requires s.closed || !IsRunning(s.actor) || s.actor.activeGen != s.pipes[i].sender.gen
    ensures var step := Stage(i, NextStop(s.pipes[i]));
            && MayStep(s, step)
            && var s' := Take(s, isLetter, step);
               && SysInv(s') && s'.actor == s.actor && s'.queue == s.queue && s'.closed == s.closed
               && |s'.pipes| == |s.pipes| && s'.pipes[i].sender == s.pipes[i].sender
               && Unended(s'.pipes[i]) < Unended(s.pipes[i])
  {
    hide SysInv;
    hide Sentences.WellFormed;
    PipesAreWellFormed(s, i);
    var a := NextStop(s.pipes[i]);
    assert MayStep(s, Stage(i, a));
    StageKeeps(s, isLetter, i, a);
    assert s.queue + [] == s.queue;
  }

  // Nothing keeps running for nobody: once the session is closed, or the response of a
  // pipeline is not the running one, all its stages can stop, sending nothing more.
  lemma {:induction false} StagesCanStop(s: System, isLetter: Rune -> bool, i: nat) returns (steps: seq<Step>)
    requires SysInv(s) && i < |s.pipes|
    requires s.closed || !IsRunning(s.actor) || s.actor.activeGen != s.pipes[i].sender.gen
    ensures MayRun(s, isLetter, steps) && |steps| <= Unended(s.pipes[i]) <= 3
    ensures forall k :: 0 <= k < |steps| ==> steps[k].Stage? && steps[k].i == i && IsStop(steps[k].action)
    ensures var s' := Run(s, isLetter, steps);
            s'.actor == s.actor && s'.queue == s.queue && i < |s'.pipes| && AllEnded(s'.pipes[i])
    decreases Unended(s.pipes[i])
  {
    hide SysInv;
    hide MayStep;
    hide Take;
    if AllEnded(s.pipes[i]) {
      return [];
    }
    OneStop(s, isLetter, i);
    var step := Stage(i, NextStop(s.pipes[i]));
    var rest := StagesCanStop(Take(s, isLetter, step), isLetter, i);
    steps := [step] + rest;
    assert steps[1..] == rest;
  }
}
