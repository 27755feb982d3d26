// What holds after every run of a session, whatever the interleaving of
// commands, audio, transcripts, timers, stages and stale facts.
module SessionRuns {
  import opened Utf8
  import opened Conversations
  import opened Events
  import opened Grammar
  import opened Actor
  import opened ActorInvariants
  import opened PipeLog
  import opened PipeInvariants
  import opened Pipelines
  import opened Gateway
  import Truncation
  import InputBuffer
  import Turns
  import Vad

  // s can be reached from a new session.
  ghost predicate Reachable(s: System, isLetter: Rune -> bool) {
    exists cfg: Config, bufferMaxMs: nat, steps: seq<Step> ::
      MayRun(NewSystem(cfg, bufferMaxMs), isLetter, steps) && Run(NewSystem(cfg, bufferMaxMs), isLetter, steps) == s
  }

  lemma ReachableIsSound(s: System, isLetter: Rune -> bool)
    requires Reachable(s, isLetter)
    ensures SysInv(s)
  {
    hide SysInv;
    hide MayRun;
    hide Run;
    var cfg: Config, bufferMaxMs: nat, steps: seq<Step> :|
      MayRun(NewSystem(cfg, bufferMaxMs), isLetter, steps) && Run(NewSystem(cfg, bufferMaxMs), isLetter, steps) == s;
    NewSystemInv(cfg, bufferMaxMs);
    RunKeeps(NewSystem(cfg, bufferMaxMs), isLetter, steps);
  }

  // ---- the wire -----------------------------------------------------------------------------------

  // Whatever has happened, everything emitted so far is legal, and if the
  // session ends now the open response is closed properly.
  lemma EveryTraceIsLegal(s: System, isLetter: Rune -> bool)
    requires Reachable(s, isLetter)
    ensures Legal(s.actor.trace)
    ensures s.actor.trace <= Cleanup(s.actor).trace
    ensures ParseAll(Cleanup(s.actor).trace) == Idle(Cleanup(s.actor).nextResp)
  {
    hide Evolves;
    hide ParseAll;
    hide Cleanup;
    ReachableIsSound(s, isLetter);
    CleanupCloses(s.actor);
    CleanupExtends(s.actor);
    ActorHolds(s);
  }

  lemma CleanupExtends(st: State)
    ensures st.trace <= Cleanup(st).trace
  {
  }

  // ---- waiting --------------------------------------------------------------------------------------

  // No wait is left without its timer, and no timer without its wait.
  lemma WaitsAreBounded(s: System, isLetter: Rune -> bool)
    requires Reachable(s, isLetter)
    ensures var st := s.actor;
            && (st.asrWait <==> st.active.Some? && st.active.value.awaiting)
            && (st.deferItem != 0 <==> st.deferWait)
            && (st.turn.pendingEot ==> st.eot == Some(st.turnNo))
            && (st.turn.responseActive <==> st.active.Some?)
  {
    ReachableIsSound(s, isLetter);
  }

  // An end-of-turn timer armed in an earlier turn, one since closed by a commit
  // or overtaken by new speech, ends nothing: when it fires it is spent, and
  // that is all.
  lemma OldTimerIsHarmless(s: System, isLetter: Rune -> bool, io: Io)
    requires Reachable(s, isLetter) && s.actor.eot.Some? && s.actor.eot != Some(s.actor.turnNo)
    ensures OnEndOfTurnTimer(s.actor, io) == DisarmEndOfTurn(s.actor)
  {
    ReachableIsSound(s, isLetter);
    Unmoved(DisarmEndOfTurn(s.actor), io);
  }

  // Such timers exist: a client commit closes a turn that is waiting for its
  // timer and leaves the timer running.
  lemma CommitLeavesTimer(st: State, io: Io)
    requires ActorInv(st) && st.turn.pendingEot
    ensures var st' := OnCommand(st, CommitAudio, io);
            st'.eot == Some(st.turnNo) && st'.turnNo == st.turnNo + 1 && !st'.turn.pendingEot
  {
    hide ResponseInv;
    hide Commit;
    CommitAside(Stepped(st, Turns.ClientCommit), io);
  }

  lemma CommitAside(st: State, io: Io)
    ensures var st' := Commit(st, io).st;
            st'.eot == st.eot && st'.turnNo == st.turnNo && st'.turn == st.turn
  {
    hide AppendItem;
    hide Vad.Reset;
    hide InputBuffer.Clear;
    hide InputBuffer.Sliceable;
    hide InputBuffer.CommitStartMs;
    hide InputBuffer.CommitEndMs;
  }

  lemma Unmoved(st: State, io: Io)
    requires !st.turn.pendingEot
    ensures StepAndApply(st, Turns.AsrEndOfTurn, io) == st
  {
    hide Turns.EndTurn;
    assert st.(turn := st.turn) == st;
  }

  // ---- what the model is shown -----------------------------------------------------------------

  // Whenever a pipeline is started its messages, expanded, are the items of the
  // conversation that say something, in order, with at most one call each.
  lemma ModelSeesTheConversation(st: State)
    requires ItemsInv(st) && st.active.Some?
    ensures var st' := StartPipeline(st);
            var l := st'.launches[|st'.launches| - 1];
            && st'.launches == st.launches + [l] && st'.conv == st.conv
            && l.resp == st.active.value.ref && l.gen == st.activeGen + 1
            && Replayable(l.messages) && ExpandAll(l.messages) == Pieces(Views(st.conv))
  {
    hide MessagesOf;
    hide ExpandAll;
    hide Pieces;
    ViewsArePlain(st);
    ReplayIsFaithful(Views(st.conv));
  }

  lemma ViewsArePlain(st: State)
    requires ItemsInv(st)
    ensures PlainRoles(Views(st.conv))
  {
  }

  lemma {:induction false} PieceIsThere(items: seq<ItemView>, i: nat)
    requires i < |items| && items[i].content.AudioContent? && items[i].text != []
    ensures Said(items[i].role, items[i].text) in Pieces(items)
    decreases |items|
  {
    if i < |items| - 1 { PieceIsThere(items[..|items| - 1], i); }
  }

  lemma ViewIsThere(c: Conversation, ref: ItemRef)
    requires ConvInv(c) && ref in c.index
    ensures 0 <= IndexOf(c.items, ref) < |Views(c)| && Views(c)[IndexOf(c.items, ref)] == c.index[ref].view
  {
  }

  // A pipeline started now is shown what item ref says.
  lemma StartedIsShown(st: State, ref: ItemRef)
    requires ItemsInv(st) && st.active.Some? && ref in st.conv.index
    requires st.conv.index[ref].view.content.AudioContent?
    ensures var st' := StartPipeline(st);
            var v := st.conv.index[ref].view;
            && |st'.launches| == |st.launches| + 1 && st'.launches[|st.launches|].resp == st.active.value.ref
            && (v.text != [] ==> Said(v.role, v.text) in ExpandAll(st'.launches[|st.launches|].messages))
  {
    hide StartPipeline;
    hide Views;
    hide Pieces;
    hide ExpandAll;
    ModelSeesTheConversation(st);
    ViewIsThere(st.conv, ref);
    if st.conv.index[ref].view.text != [] { PieceIsThere(Views(st.conv), IndexOf(st.conv.items, ref)); }
  }

  // A response waits for the transcript of the pending item.
  predicate Waits(st: State) {
    HasPending(st) && st.active.Some? && st.active.value.awaiting && st.active.value.dependsOn == st.pendingItem
  }

  // A response is to be created when that transcript is there.
  predicate Defers(st: State) {
    HasPending(st) && st.active.None? && st.deferItem == st.pendingItem
  }

  // The next launch is for response resp and is shown text as the user's.
  ghost predicate ShownTo(st: State, st': State, resp: ResponseRef, text: Text) {
    && |st.launches| < |st'.launches| && st'.launches[|st.launches|].resp == resp
    && (text != [] ==> Said(UserRole, text) in ExpandAll(st'.launches[|st.launches|].messages))
  }

  lemma TranscribedText(st: State, text: Text, delta: Text)
    requires HasPending(st) && ActorInv(st)
    ensures var st' := Transcribed(st, text, delta);
            && st'.active == st.active && st'.launches == st.launches && st'.deferItem == st.deferItem
            && st'.nextResp == st.nextResp && st'.pendingItem == 0 && 0 !in st'.conv.index
            && st.pendingItem in st'.conv.index
            && var v := st'.conv.index[st.pendingItem].view;
               v.text == text && v.role.UserRole? && v.content.AudioContent?
  {
    hide TimerInv;
    hide ParseAll;
  }

  lemma ItemsOf(st: State)
    requires ActorInv(st)
    ensures ItemsInv(st)
  {
    hide ItemsInv;
  }

  lemma WaitingIsShown(st: State, text: Text, delta: Text)
    requires ActorInv(st) && Waits(st)
    ensures ShownTo(st, CompletePending(st, text, delta), st.active.value.ref, text)
  {
    hide ActorInv;
    hide Transcribed;
    hide StartPipeline;
    hide StartResponse;
    hide Blank;
    hide ExpandAll;
    hide ItemsInv;
    TranscribedText(st, text, delta);
    TranscribedKeeps(st, text, delta);
    var st1 := StopAsrWait(Transcribed(st, text, delta));
    ItemsOf(Transcribed(st, text, delta));
    StoppedItems(Transcribed(st, text, delta));
    StartedIsShown(st1, st.pendingItem);
    StartedIsActive(st1);
  }

  lemma StoppedItems(st: State)
    requires ItemsInv(st)
    ensures ItemsInv(StopAsrWait(st)) && ItemsInv(DropDeferred(st))
  {
  }

  lemma StartedIsActive(st: State)
    requires st.active.Some?
    ensures StartPipeline(st).active.Some?
  {
    hide MessagesOf;
  }

  lemma DeferredIsShown(st: State, text: Text, delta: Text)
    requires ActorInv(st) && Defers(st) && !Blank(text)
    ensures ShownTo(st, CompletePending(st, text, delta), st.nextResp + 1, text)
  {
    hide ActorInv;
    hide Transcribed;
    hide StartPipeline;
    hide Blank;
    hide ExpandAll;
    hide ItemsInv;
    hide Created;
    TranscribedText(st, text, delta);
    TranscribedKeeps(st, text, delta);
    var st1 := Transcribed(st, text, delta);
    assert st.deferItem != 0;
    ItemsOf(st1);
    StoppedItems(st1);
    var r := NewResponse(st.nextResp + 1, st.cfg.textOnly);
    TranscribedConfig(st, text, delta);
    CreatedItems(DropDeferred(st1), r);
    StartedIsShown(Created(DropDeferred(st1), r), st.pendingItem);
  }

  lemma TranscribedConfig(st: State, text: Text, delta: Text)
    requires HasPending(st)
    ensures Transcribed(st, text, delta).cfg == st.cfg
  {
  }

  lemma CreatedItems(st: State, r: Response)
    requires ItemsInv(st)
    ensures var st' := Created(st, r);
            && ItemsInv(st') && st'.conv == st.conv && st'.pendingItem == st.pendingItem
            && st'.active == Some(r) && st'.launches == st.launches
  {
  }

  lemma ShownStays(st: State, st0: State, st1: State, st2: State, resp: ResponseRef, text: Text)
    requires ShownTo(st0, st1, resp, text) && st0.launches == st.launches && Good(st1, st2)
    ensures ShownTo(st, st2, resp, text)
  {
    hide ActorInv;
    hide ItemsKept;
    hide ExpandAll;
    assert st1.launches <= st2.launches;
  }

  // ---- stale facts ---------------------------------------------------------------------------------

  lemma {:induction false} OfContains(queue: seq<PipeEvent>, k: nat, gen: Generation)
    requires k < |queue| && queue[k].gen == gen
    ensures queue[k] in Of(queue, gen)
    decreases |queue|
  {
    if k > 0 {
      OfContains(queue[1..], k - 1, gen);
    }
  }

  // Every queued fact that passes the generation filter, wherever it is in the
  // queue, speaks about the active response and in its modality; all others are
  // ignored without a trace.
  lemma QueuedFactsAreAddressed(s: System, isLetter: Rune -> bool, k: nat)
    requires Reachable(s, isLetter) && k < |s.queue|
    ensures Addressed(s.actor, s.queue[k])
    ensures !Fresh(s.actor, s.queue[k]) ==> OnPipeEvent(s.actor, s.queue[k]) == s.actor
  {
    hide SysInv;
    hide OnPipeEvent;
    ReachableIsSound(s, isLetter);
    var ev := s.queue[k];
    StaleIsIgnored(s.actor, ev);
    if Fresh(s.actor, ev) {
      OfContains(s.queue, k, s.actor.activeGen);
      SentByTheLast(s, ev);
    }
  }

  lemma StaleIsIgnored(st: State, ev: PipeEvent)
    ensures !Fresh(st, ev) ==> OnPipeEvent(st, ev) == st
  {
  }

  lemma SentByTheLast(s: System, ev: PipeEvent)
    requires SysInv(s) && Fresh(s.actor, ev) && ev in Of(s.queue, s.actor.activeGen)
    ensures Addressed(s.actor, ev)
  {
    hide ActorInv;
    hide ItemsFit;
    hide Progress;
    hide Coherent;
    hide TextMayFollow;
    hide SegmentMayFollow;
    hide TextInv;
    hide SplitInv;
    hide TtsInv;
    var p := s.pipes[|s.pipes| - 1];
    assert PipeInv(p);
    assert ev in p.log by { assert p.log == s.received + Of(s.queue, s.actor.activeGen); }
    var n :| 0 <= n < |p.log| && p.log[n] == ev;
    NextMayFollow(p.log, n, p.sender, !p.stopped);
  }

  // ---- completion -------------------------------------------------------------------------------------

  // The response is about to complete: its last fact is at the head of the queue.
  ghost predicate Completes(s: System) {
    && s.queue != [] && Fresh(s.actor, s.queue[0]) && !s.queue[0].PipeError?
    && OnPipeEvent(s.actor, s.queue[0]).active.None?
  }

  // A fact that ends a response without an error is the last one it needs.
  lemma LastFact(st: State, st': State, ev: PipeEvent, received: seq<PipeEvent>)
    requires IsRunning(st) && Ended(st, st', ev) && !ev.PipeError? && Progress(st, received)
    ensures var r := st.active.value;
            var all := received + [ev];
            && LlmOver(all) && (r.textOnly || !Spoke(all) || TtsOver(all))
            && TextIn(all) == TextIn(received) && AudioIn(all) == AudioIn(received)
            && SegmentsIn(all) == SegmentsIn(received) && TimingsIn(all) == TimingsIn(received)
  {
    hide ParseAll;
    Snoc(received, ev);
  }

  lemma CompletionIsDone(s: System)
    requires SysInv(s) && Completes(s)
    ensures IsRunning(s.actor)
    ensures var r := s.actor.active.value;
            var all := s.received + [s.queue[0]];
            && LlmOver(all) && (r.textOnly || !Spoke(all) || TtsOver(all))
            && TextIn(all) == TextIn(s.received) && AudioIn(all) == AudioIn(s.received)
            && SegmentsIn(all) == SegmentsIn(s.received) && TimingsIn(all) == TimingsIn(s.received)
  {
    hide SysInv;
    hide Progress;
    hide Good;
    hide OnPipeEvent;
    hide Ended;
    hide Addressed;
    var ev := s.queue[0];
    FreshIsAddressed(s);
    ActorHolds(s);
    OnPipeEventKeeps(s.actor, ev);
    ProgressHolds(s);
    LastFact(s.actor, OnPipeEvent(s.actor, ev), ev, s.received);
  }

  lemma ProgressHolds(s: System)
    requires SysInv(s) && IsRunning(s.actor)
    ensures Progress(s.actor, s.received)
  {
    hide ActorInv;
    hide PipesInv;
    hide ItemsFit;
    hide Progress;
  }

  lemma LogHolds(s: System)
    requires SysInv(s) && IsRunning(s.actor)
    ensures s.pipes != [] && Coherent(LastPipe(s).log, LastPipe(s).sender, !LastPipe(s).stopped)
    ensures s.received + Of(s.queue, s.actor.activeGen) == LastPipe(s).log
  {
    hide ActorInv;
    hide ItemsFit;
    hide Progress;
    hide Coherent;
    assert PipeInv(LastPipe(s));
  }

  lemma HeadIsInLog(s: System)
    requires SysInv(s) && s.queue != [] && Fresh(s.actor, s.queue[0])
    ensures s.pipes != [] && s.received + [s.queue[0]] <= LastPipe(s).log
    ensures Coherent(LastPipe(s).log, LastPipe(s).sender, !LastPipe(s).stopped)
  {
    hide SysInv;
    hide Coherent;
    LogHolds(s);
    HeadFirst(s.received, s.queue, s.actor.activeGen);
  }

  lemma HeadFirst(received: seq<PipeEvent>, queue: seq<PipeEvent>, gen: Generation)
    requires queue != [] && queue[0].gen == gen
    ensures received + [queue[0]] <= received + Of(queue, gen)
  {
    assert received + Of(queue, gen) == (received + [queue[0]]) + Of(queue[1..], gen);
  }

  // A response that completes has lost nothing: all text its LLM stage has sent
  // and all audio its TTS stage has sent, ever, have been emitted, and all of its
  // alignment is on record; and unless the session is closing, the recorded segments
  // cover all of both when there is audio at all.
  lemma CompletionLosesNothing(s: System, isLetter: Rune -> bool)
    requires Reachable(s, isLetter) && Completes(s)
    ensures s.pipes != [] && ParseAll(s.actor.trace).Open?
    ensures var o := ParseAll(s.actor.trace).run;
            var sent := LastPipe(s).log;
            && o.text == TextIn(sent) && o.bytes == AudioIn(sent) && Timings(s.actor) == TimingsIn(sent)
            && (!s.closed && !o.textOnly && Spoke(sent) ==>
                  && Recorded(s.actor) == SegmentsIn(sent)
                  && Truncation.Tiled(Recorded(s.actor), 0, 0, |o.text|, o.bytes))
  {
    hide SysInv;
    hide Coherent;
    hide ParseAll;
    hide OnPipeEvent;
    hide TextIn;
    hide SegmentsIn;
    ReachableIsSound(s, isLetter);
    CompletionIsDone(s);
    HeadIsInLog(s);
    ToldBy(s);
    var p := LastPipe(s);
    var all := s.received + [s.queue[0]];
    assert p.log[..|all|] == all;
    LogIsComplete(p.log, |all|, p.sender, !p.stopped);
    if !s.closed && !p.sender.textOnly && Spoke(p.log) {
      TtsDoneCovers(p.log, p.sender);
      SegmentsTile(p.log, p.sender, true);
    }
  }

  lemma ToldBy(s: System)
    requires SysInv(s) && IsRunning(s.actor)
    ensures s.pipes != [] && ParseAll(s.actor.trace).Open?
    ensures var o := ParseAll(s.actor.trace).run;
            && o.text == TextIn(s.received) && o.bytes == AudioIn(s.received)
               && Recorded(s.actor) == SegmentsIn(s.received) && Timings(s.actor) == TimingsIn(s.received)
            && o.textOnly == LastPipe(s).sender.textOnly && (LastPipe(s).stopped ==> s.closed)
            && LastPipe(s).sender.textOnly == s.actor.active.value.textOnly
  {
    hide ParseAll;
    hide PipeInv;
    hide ItemsFit;
  }

  // A pipeline whose first n facts satisfy the response has no more to say.
  lemma LogIsComplete(log: seq<PipeEvent>, n: nat, sender: Sender, whole: bool)
    requires Coherent(log, sender, whole) && n <= |log|
    requires LlmOver(log[..n]) && (sender.textOnly || !Spoke(log[..n]) || TtsOver(log[..n]))
    ensures TextIn(log) == TextIn(log[..n]) && AudioIn(log) == AudioIn(log[..n])
    ensures SegmentsIn(log) == SegmentsIn(log[..n]) && TimingsIn(log) == TimingsIn(log[..n])
    ensures FinishIn(log) == FinishIn(log[..n])
    ensures !sender.textOnly && Spoke(log) ==> TtsOver(log)
  {
    hide MayFollow;
    NothingFollows(log, n, sender, whole);
    if sender.textOnly {
      TextOnlyIsSilent(log, sender, whole);
      CoherentPrefix(log, n, sender, whole);
      TextOnlyIsSilent(log[..n], sender, whole);
    } else if !Spoke(log[..n]) {
      SilentWithoutText(log, sender, whole);
      CoherentPrefix(log, n, sender, whole);
      SilentWithoutText(log[..n], sender, whole);
    }
  }

  // Nor will it ever have: no step of such a pipeline adds text or audio.
  lemma CompletedStaysComplete(p: Pipe, isLetter: Rune -> bool, a: Action)
    requires PipeInv(p) && Enabled(p, a)
    requires LlmOver(p.log) && (p.sender.textOnly || !Spoke(p.log) || TtsOver(p.log))
    ensures var p' := Act(isLetter, p, a);
            && TextIn(p'.log) == TextIn(p.log) && AudioIn(p'.log) == AudioIn(p.log)
            && LlmOver(p'.log) && (p'.sender.textOnly || !Spoke(p'.log) || TtsOver(p'.log))
  {
    hide Coherent;
    hide TextIn;
    hide SegmentsIn;
    hide Act;
    hide Sent;
    hide Enabled;
    var p' := Act(isLetter, p, a);
    ActKeeps(isLetter, p, a);
    ActLogs(isLetter, p, a);
    assert p'.log[..|p.log|] == p.log;
    LogIsComplete(p'.log, |p.log|, p.sender, !p'.stopped);
    NothingFollows(p'.log, |p.log|, p.sender, !p'.stopped);
  }

  lemma {:induction false} TextOnlyIsSilent(log: seq<PipeEvent>, sender: Sender, whole: bool)
    requires Coherent(log, sender, whole) && sender.textOnly
    ensures AudioIn(log) == 0 && SegmentsIn(log) == [] && TimingsIn(log) == []
  {
    hide SentenceBoundaries.Settled;
    if log != [] {
      TextOnlyIsSilent(log[..|log| - 1], sender, whole);
    }
  }

  // ---- truncation -----------------------------------------------------------------------------------------

  // The segments recorded on an item tile its text and its audio from the
  // start, without gaps, inside what has been accumulated there, at any moment.
  lemma RecordedSegmentsTile(s: System, isLetter: Rune -> bool, ref: ItemRef)
    requires Reachable(s, isLetter)
    requires ref in s.actor.conv.index && !WasTruncated(s.actor.trace, ref)
    ensures var it := s.actor.conv.index[ref];
            exists tEnd: nat, aEnd: nat ::
              Truncation.Tiled(it.segments, 0, 0, tEnd, aEnd) && tEnd <= |it.view.text| && aEnd <= it.audioBytes
  {
    hide ActorInv;
    hide PipesInv;
    hide RunInv;
    ReachableIsSound(s, isLetter);
    assert Sound(s.actor.conv.index[ref], !s.over);
  }

  // In any reachable session whose actor still handles commands, a closing one
  // included, truncating an item for the first time is safe at
  // every cut: no slice goes out of range, the text kept is a prefix that ends
  // between runes, a later cut keeps at least as much, and a cut at the end
  // keeps everything.
  lemma FirstTruncateIsSafe(s: System, isLetter: Rune -> bool, ref: ItemRef, cut1: int, cut2: int)
    requires Reachable(s, isLetter) && !s.over
    requires ref in s.actor.conv.index && !WasTruncated(s.actor.trace, ref) && cut1 <= cut2
    requires Valid(s.actor.conv.index[ref].view.text)
    ensures var it := s.actor.conv.index[ref];
            var kept1 := Truncation.TrimText(it.view.text, it.segments, it.alignment, cut1, it.audioBytes);
            var kept2 := Truncation.TrimText(it.view.text, it.segments, it.alignment, cut2, it.audioBytes);
            && kept1.Trimmed? && kept2.Trimmed?
            && kept1.text <= kept2.text <= it.view.text
            && Valid(kept1.text)
            && (cut2 >= it.audioBytes ==> kept2.text == it.view.text)
  {
    hide Truncation.TrimText;
    hide ActorInv;
    hide PipesInv;
    hide RunInv;
    ReachableIsSound(s, isLetter);
    var it := s.actor.conv.index[ref];
    assert Sound(it, true);
    Truncation.TrimIsPrefix(it.view.text, it.segments, it.alignment, cut1, it.audioBytes);
    Truncation.TrimIsPrefix(it.view.text, it.segments, it.alignment, cut2, it.audioBytes);
    Truncation.TrimIsMonotone(it.view.text, it.segments, it.alignment, cut1, cut2, it.audioBytes);
  }

  // ---- runs one after the other ------------------------------------------------------------------

  lemma {:induction false} RunAppend(s: System, isLetter: Rune -> bool, a: seq<Step>, b: seq<Step>)
    requires MayRun(s, isLetter, a) && MayRun(Run(s, isLetter, a), isLetter, b)
    ensures MayRun(s, isLetter, a + b) && Run(s, isLetter, a + b) == Run(Run(s, isLetter, a), isLetter, b)
    decreases |a|
  {
    hide Take;
    hide MayStep;
    if a == [] {
      assert a + b == b;
    } else {
      assert (a + b)[1..] == a[1..] + b;
      RunAppend(Take(s, isLetter, a[0]), isLetter, a[1..], b);
    }
  }

  lemma RunOne(s: System, isLetter: Rune -> bool, step: Step)
    requires MayStep(s, step)
    ensures MayRun(s, isLetter, [step]) && Run(s, isLetter, [step]) == Take(s, isLetter, step)
  {
    hide Take;
    hide MayStep;
    assert [step][1..] == [];
  }

  // What the reached system goes on to is reached as well.
  lemma GoesOnReachable(s: System, isLetter: Rune -> bool, steps: seq<Step>)
    requires Reachable(s, isLetter) && MayRun(s, isLetter, steps)
    ensures Reachable(Run(s, isLetter, steps), isLetter)
  {
    hide MayRun;
    hide Run;
    var cfg: Config, bufferMaxMs: nat, before: seq<Step> :|
      MayRun(NewSystem(cfg, bufferMaxMs), isLetter, before) && Run(NewSystem(cfg, bufferMaxMs), isLetter, before) == s;
    RunAppend(NewSystem(cfg, bufferMaxMs), isLetter, before, steps);
  }

  lemma NewIsReachable(cfg: Config, bufferMaxMs: nat, isLetter: Rune -> bool)
    ensures Reachable(NewSystem(cfg, bufferMaxMs), isLetter)
  {
    hide NewSystem;
    assert MayRun(NewSystem(cfg, bufferMaxMs), isLetter, [])
           && Run(NewSystem(cfg, bufferMaxMs), isLetter, []) == NewSystem(cfg, bufferMaxMs);
  }
}
