// A whole session: the actor, the pipelines it has started, and the queue of
// facts between them, taking steps in any order (internal/session/session.go,
// internal/session/pipeline.go).
module Gateway {
  import opened Audio
  import opened Utf8
  import opened Conversations
  import opened Events
  import opened Grammar
  import opened Actor
  import opened ActorInvariants
  import opened PipeLog
  import opened PipeInvariants
  import opened Pipelines
  import Truncation

  // queue is respEvents; received the facts of the running response that the
  // actor has taken in so far; closed whether the session context is done; over
  // whether the actor has begun a handler since, after which its loop returns.
  datatype System = System(
    actor: State,
    pipes: seq<Pipe>,
    queue: seq<PipeEvent>,
    received: seq<PipeEvent>,
    closed: bool,
    over: bool)

  // What the actor's select can pick besides respEvents.
  datatype Input =
    | GotCommand(cmd: Command, io: Io)
    | GotAudio(pcm: Bytes, io: Io)
    | GotAsr(asr: AsrEvent, io: Io)
    | TranscriptTimer
    | EndOfTurnTimer(io: Io)
    | DeferTimer

  // CloseOutside: the connection closes the session, or its deadline passes.
  datatype Step = Handle(input: Input) | Deliver | Stage(i: nat, action: Action) | CloseOutside

  function NewSystem(cfg: Config, bufferMaxMs: nat): System {
    System(NewSession(cfg, bufferMaxMs), [], [], [], false, false)
  }

  // A timer fires only while it is armed.
  predicate Ready(st: State, input: Input) {
    match input
    case TranscriptTimer => st.asrWait
    case EndOfTurnTimer(_) => st.eot.Some?
    case DeferTimer => st.deferWait
    case _ => true
  }

  function Handled(st: State, input: Input): State {
    match input
    case GotCommand(cmd, io) => OnCommand(st, cmd, io)
    case GotAudio(pcm, io) => OnAudio(st, pcm, io)
    case GotAsr(ev, io) => OnAsr(st, ev, io)
    case TranscriptTimer => OnTranscriptTimeout(st)
    case EndOfTurnTimer(io) => OnEndOfTurnTimer(st, io)
    case DeferTimer => OnDeferredTimeout(st)
  }

  // The context of pipeline gen is done.
  predicate ContextDone(s: System, gen: Generation) {
    s.closed || !IsRunning(s.actor) || s.actor.activeGen != gen
  }

  // A stage stops only once its context is done.
  predicate MayStep(s: System, step: Step) {
    match step
    case Handle(input) => !s.over && Ready(s.actor, input)
    case Deliver => !s.over && s.queue != []
    case Stage(i, a) =>
      && i < |s.pipes| && Sentences.WellFormed(s.pipes[i].splitter) && Enabled(s.pipes[i], a)
      && (IsStop(a) ==> ContextDone(s, s.pipes[i].sender.gen))
    case CloseOutside => true
  }

  function SenderOf(l: Launch): Sender {
    Sender(l.gen, l.resp, l.textOnly)
  }

  function NewPipes(launches: seq<Launch>): seq<Pipe> {
    seq(|launches|, i requires 0 <= i < |launches| => NewPipe(SenderOf(launches[i])))
  }

  // The actor has moved to st; pipelines it has launched begin.
  function Moved(s: System, st: State): System {
    if |st.launches| <= |s.actor.launches| then s.(actor := st, over := s.closed, closed := s.closed || st.cancelled)
    else s.(actor := st, over := s.closed, closed := s.closed || st.cancelled, received := [],
            pipes := s.pipes + NewPipes(st.launches[|s.actor.launches|..]))
  }

  function Take(s: System, isLetter: Rune -> bool, step: Step): System
    requires MayStep(s, step)
  {
    match step
    case Handle(input) => Moved(s, Handled(s.actor, input))
    case Deliver =>
      var ev := s.queue[0];
      Moved(s.(queue := s.queue[1..], received := if Fresh(s.actor, ev) then s.received + [ev] else s.received),
            OnPipeEvent(s.actor, ev))
    case Stage(i, a) =>
      s.(pipes := s.pipes[i := Act(isLetter, s.pipes[i], a)], queue := s.queue + Sent(s.pipes[i], a))
    case CloseOutside => s.(closed := true)
  }

  // ---- the invariant ----------------------------------------------------------------------------------

  // The facts of generation gen, in order.
  function Of(queue: seq<PipeEvent>, gen: Generation): seq<PipeEvent>
    decreases |queue|
  {
    if queue == [] then []
    else if queue[0].gen == gen then [queue[0]] + Of(queue[1..], gen)
    else Of(queue[1..], gen)
  }

  ghost predicate PipesInv(s: System) {
    && |s.pipes| == |s.actor.launches|
    && (forall i :: 0 <= i < |s.pipes| ==> s.pipes[i].sender == SenderOf(s.actor.launches[i]))
    && (forall i :: 0 <= i < |s.pipes| ==> PipeInv(s.pipes[i]))
    && GensGrow(s.actor)
  }

  // Generations are never used twice, nor before they are handed out.
  ghost predicate GensGrow(st: State) {
    && (forall i :: 0 <= i < |st.launches| ==> st.launches[i].gen <= st.activeGen)
    && (forall i, j :: 0 <= i < j < |st.launches| ==> st.launches[i].gen < st.launches[j].gen)
  }

  ghost predicate QueueInv(s: System) {
    forall k :: 0 <= k < |s.queue| ==> s.queue[k].gen <= s.actor.activeGen
  }

  // What the actor has of the running response is what it has taken in.
  ghost predicate Progress(st: State, received: seq<PipeEvent>)
    requires st.active.Some?
  {
    var r := st.active.value;
    && r.llmDone == LlmOver(received) && r.ttsDone == TtsOver(received) && r.spoke == Spoke(received)
    && (r.item != 0 <==> Spoke(received))
    && ParseAll(st.trace).Open?
    && ParseAll(st.trace).run.text == TextIn(received)
    && ParseAll(st.trace).run.bytes == AudioIn(received)
    && Recorded(st) == SegmentsIn(received) && Timings(st) == TimingsIn(received)
    && (r.llmDone ==> FinishIn(received) == Some(r.finish))
  }

  // The running response's pipeline is the last one; what it has sent is what
  // the actor has taken in and what is still queued, in that order.
  ghost predicate RunInv(s: System) {
    IsRunning(s.actor) ==>
      && |s.pipes| > 0
      && var p := s.pipes[|s.pipes| - 1];
         && p.sender == Sender(s.actor.activeGen, s.actor.active.value.ref, s.actor.active.value.textOnly)
         && p.log == s.received + Of(s.queue, s.actor.activeGen)
         && (p.stopped ==> s.closed)
         && Progress(s.actor, s.received)
  }

  // The segments of an item tile its text and audio from the start; whole: and
  // they end between runes, so that it can be truncated safely.
  ghost predicate Sound(it: Item, whole: bool) {
    && (exists tEnd: nat, aEnd: nat ::
          Truncation.Tiled(it.segments, 0, 0, tEnd, aEnd) && tEnd <= |it.view.text| && aEnd <= it.audioBytes)
    && (whole ==> Truncation.RuneAligned(it.view.text, it.segments))
  }

  // The segments recorded tile text and audio from the start, as they were spoken.
  ghost predicate Tiling(it: Item) {
    exists tEnd: nat, aEnd: nat :: Truncation.Tiled(it.segments, 0, 0, tEnd, aEnd)
  }

  // Segments tile, truncated or not, and every item that was not is sound.
  ghost predicate ItemsFit(st: State, whole: bool) {
    forall ref :: ref in st.conv.index ==>
      Tiling(st.conv.index[ref]) && (!WasTruncated(st.trace, ref) ==> Sound(st.conv.index[ref], whole))
  }

  lemma ItemsFitWeaken(st: State, whole: bool)
    requires ItemsFit(st, whole)
    ensures ItemsFit(st, false)
  {
    hide Truncation.RuneAligned;
  }

  ghost predicate SysInv(s: System) {
    && ActorInv(s.actor) && PipesInv(s) && QueueInv(s) && RunInv(s)
    && (s.over ==> s.closed)
    && ItemsFit(s.actor, !s.over)
  }

  lemma NewSystemInv(cfg: Config, bufferMaxMs: nat)
    ensures SysInv(NewSystem(cfg, bufferMaxMs))
  {
    NewSessionInv(cfg, bufferMaxMs);
  }

  // ---- queues -------------------------------------------------------------------------------------------

  lemma {:induction false} OfAppend(a: seq<PipeEvent>, b: seq<PipeEvent>, gen: Generation)
    ensures Of(a + b, gen) == Of(a, gen) + Of(b, gen)
    decreases |a|
  {
    if a == [] {
      assert a + b == b;
    } else {
      assert (a + b)[1..] == a[1..] + b && (a + b)[0] == a[0];
      OfAppend(a[1..], b, gen);
      if a[0].gen == gen {
        assert [a[0]] + (Of(a[1..], gen) + Of(b, gen)) == ([a[0]] + Of(a[1..], gen)) + Of(b, gen);
      }
    }
  }

  lemma {:induction false} OfAll(es: seq<PipeEvent>, from: Generation, gen: Generation)
    requires forall i :: 0 <= i < |es| ==> es[i].gen == from
    ensures Of(es, gen) == if from == gen then es else []
    decreases |es|
  {
    if es != [] {
      OfAll(es[1..], from, gen);
      assert es == [es[0]] + es[1..];
    }
  }

  lemma {:induction false} OfNone(queue: seq<PipeEvent>, gen: Generation)
    requires forall k :: 0 <= k < |queue| ==> queue[k].gen < gen
    ensures Of(queue, gen) == []
    decreases |queue|
  {
    if queue != [] {
      OfNone(queue[1..], gen);
    }
  }

  // ---- steps of the actor other than deliveries ------------------------------------------------------------

  lemma HandledIsGood(st: State, input: Input)
    requires ActorInv(st) && Ready(st, input)
    ensures Good(st, Handled(st, input))
  {
    hide ActorInv;
    hide Evolves;
    hide OnCommand;
    hide OnAudio;
    hide OnAsr;
    hide OnTranscriptTimeout;
    hide OnEndOfTurnTimer;
    hide OnDeferredTimeout;
    match input
    case GotCommand(cmd, io) => OnCommandKeeps(st, cmd, io);
    case GotAudio(pcm, io) => OnAudioKeeps(st, pcm, io);
    case GotAsr(ev, io) => OnAsrKeeps(st, ev, io);
    case TranscriptTimer => OnTranscriptTimeoutKeeps(st);
    case EndOfTurnTimer(io) => OnEndOfTurnTimerKeeps(st, io);
    case DeferTimer => OnDeferredTimeoutKeeps(st);
  }

  lemma GensStayGrown(st: State, st': State)
    requires GensGrow(st) && Talks(st, st')
    ensures GensGrow(st')
  {
    hide Continued;
    hide Launched;
    forall i, j | 0 <= i < j < |st'.launches| ensures st'.launches[i].gen < st'.launches[j].gen {
      if i < |st.launches| {
        assert st'.launches[i] == st.launches[i];
        if j < |st.launches| { assert st'.launches[j] == st.launches[j]; }
      }
    }
    forall i | 0 <= i < |st'.launches| ensures st'.launches[i].gen <= st'.activeGen {
      if i < |st.launches| { assert st'.launches[i] == st.launches[i]; }
    }
  }

  lemma MovedPipes(s: System, st': State)
    requires PipesInv(s) && QueueInv(s) && Talks(s.actor, st')
    ensures PipesInv(Moved(s, st')) && QueueInv(Moved(s, st'))
  {
    hide PipeInv;
    hide Continued;
    hide Launched;
    GensStayGrown(s.actor, st');
    var s' := Moved(s, st');
    forall i | 0 <= i < |s'.pipes| ensures s'.pipes[i].sender == SenderOf(st'.launches[i]) && PipeInv(s'.pipes[i]) {
      if i < |s.pipes| {
        assert st'.launches[i] == s.actor.launches[i];
      } else {
        NewPipeInv(SenderOf(st'.launches[i]));
      }
    }
  }

  lemma NothingReceived(st: State)
    requires ResponseInv(st) && IsRunning(st)
    requires var r := st.active.value; r.item == 0 && !r.spoke && !r.llmDone && !r.ttsDone
    ensures Progress(st, [])
  {
    hide ParseAll;
  }

  lemma ListsAgree(st: State)
    requires ResponseInv(st)
    ensures ConvInv(st.conv)
  {
  }

  lemma ContinuedProgress(st: State, st': State, received: seq<PipeEvent>)
    requires Continued(st, st') && Progress(st, received) && ConvInv(st.conv) && ConvInv(st'.conv)
    ensures Progress(st', received)
  {
    hide ParseAll;
  }

  lemma MovedRun(s: System, st': State)
    requires PipesInv(s) && QueueInv(s) && RunInv(s) && Talks(s.actor, st') && ResponseInv(s.actor) && ResponseInv(st')
    ensures RunInv(Moved(s, st'))
  {
    hide PipeInv;
    hide Progress;
    hide ResponseInv;
    hide GensGrow;
    var s' := Moved(s, st');
    if IsRunning(st') {
      if Launched(s.actor, st') {
        var n := |st'.launches| - 1;
        assert s'.pipes[n] == NewPipe(SenderOf(st'.launches[n]));
        OfNone(s.queue, st'.activeGen);
        NothingReceived(st');
      } else {
        assert ConvInv(s.actor.conv) && ConvInv(st'.conv) by { ListsAgree(s.actor); ListsAgree(st'); }
        ContinuedProgress(s.actor, st', s.received);
      }
    }
  }

  lemma MovedFit(st: State, st': State, whole: bool)
    requires ItemsFit(st, whole) && ItemsKept(st, st') && st.trace <= st'.trace
    ensures ItemsFit(st', whole) && ItemsFit(st', false)
  {
    hide Sound;
    hide Tiling;
    forall ref | ref in st'.conv.index
      ensures Tiling(st'.conv.index[ref])
      ensures !WasTruncated(st'.trace, ref) ==> Sound(st'.conv.index[ref], whole) && Sound(st'.conv.index[ref], false)
    {
      var it := st'.conv.index[ref];
      if it.segments == [] {
        NoSegmentsFit(it);
      } else {
        TilingKept(st.conv.index[ref], it);
        if !WasTruncated(st'.trace, ref) {
          assert !WasTruncated(st.trace, ref);
          SoundKept(st.conv.index[ref], it, whole);
        }
      }
    }
  }

  lemma NoSegmentsFit(it: Item)
    requires it.segments == []
    ensures Sound(it, true) && Sound(it, false) && Tiling(it)
  {
    assert Truncation.Tiled([], 0, 0, 0, 0);
  }

  lemma TilingKept(it: Item, it': Item)
    requires Tiling(it) && it'.segments == it.segments
    ensures Tiling(it')
  {
  }

  lemma SoundKept(it: Item, it': Item, whole: bool)
    requires Sound(it, whole) && Kept(it, it')
    ensures Sound(it', whole) && Sound(it', false)
  {
    hide Truncation.RuneAligned;
  }

  lemma MovedKeeps(s: System, st': State)
    requires SysInv(s) && Good(s.actor, st')
    ensures SysInv(Moved(s, st'))
  {
    hide PipesInv;
    hide QueueInv;
    hide RunInv;
    hide ItemsFit;
    hide Talks;
    hide ItemsKept;
    hide TimerInv;
    hide ResponseInv;
    MovedPipes(s, st');
    MovedRun(s, st');
    MovedFit(s.actor, st', !s.over);
  }

  // ---- steps of the stages -----------------------------------------------------------------------------------

  lemma StageRun(s: System, isLetter: Rune -> bool, i: nat, a: Action)
    requires SysInv(s) && MayStep(s, Stage(i, a))
    ensures RunInv(Take(s, isLetter, Stage(i, a)))
  {
    hide ActorInv;
    hide PipeInv;
    hide Progress;
    hide ItemsFit;
    hide Act;
    hide Sent;
    hide Enabled;
    hide Of;
    var p := s.pipes[i];
    assert PipeInv(p);
    ActKeeps(isLetter, p, a);
    ActLogs(isLetter, p, a);
    QueueGrows(s.queue, Sent(p, a), p.sender.gen, s.actor.activeGen, s.received);
  }

  lemma QueueGrows(queue: seq<PipeEvent>, es: seq<PipeEvent>, from: Generation, gen: Generation,
                   received: seq<PipeEvent>)
    requires forall i :: 0 <= i < |es| ==> es[i].gen == from
    ensures received + Of(queue + es, gen) == received + Of(queue, gen) + (if from == gen then es else [])
  {
    OfAppend(queue, es, gen);
    OfAll(es, from, gen);
  }

  lemma ActLogs(isLetter: Rune -> bool, p: Pipe, a: Action)
    requires Enabled(p, a) && Sentences.WellFormed(p.splitter)
    ensures Act(isLetter, p, a).log == p.log + Sent(p, a)
  {
    hide Move;
  }

  lemma StageKeeps(s: System, isLetter: Rune -> bool, i: nat, a: Action)
    requires SysInv(s) && MayStep(s, Stage(i, a))
    ensures SysInv(Take(s, isLetter, Stage(i, a)))
  {
    hide ActorInv;
    hide PipeInv;
    hide RunInv;
    hide ItemsFit;
    hide Act;
    hide Sent;
    hide Enabled;
    StageRun(s, isLetter, i, a);
    assert PipeInv(s.pipes[i]);
    ActKeeps(isLetter, s.pipes[i], a);
  }

  // ---- deliveries ------------------------------------------------------------------------------------------------

  // The running response's pipeline.
  function LastPipe(s: System): Pipe
    requires s.pipes != []
  {
    s.pipes[|s.pipes| - 1]
  }

  // The next fact of the running response is one its pipeline may send next.
  lemma HeadFollows(s: System)
    requires SysInv(s) && s.queue != [] && Fresh(s.actor, s.queue[0])
    ensures s.pipes != [] && Coherent(s.received + [s.queue[0]], LastPipe(s).sender, !LastPipe(s).stopped)
    ensures MayFollow(s.received, s.queue[0], LastPipe(s).sender, !LastPipe(s).stopped)
  {
    hide ActorInv;
    hide Progress;
    hide ItemsFit;
    hide MayFollow;
    hide Coherent;
    var p := LastPipe(s);
    assert PipeInv(p);
    var n := |s.received|;
    assert p.log == s.received + Of(s.queue, s.actor.activeGen);
    assert p.log[..n] == s.received && p.log[n] == s.queue[0] && p.log[..n + 1] == s.received + [s.queue[0]];
    CoherentPrefix(p.log, n + 1, p.sender, !p.stopped);
    NextMayFollow(p.log, n, p.sender, !p.stopped);
  }

  // A queued fact that passes the generation filter speaks about the active
  // response, in its modality.
  lemma FreshIsAddressed(s: System)
    requires SysInv(s) && s.queue != []
    ensures Addressed(s.actor, s.queue[0])
  {
    hide ActorInv;
    hide ItemsFit;
    hide PipeInv;
    hide Progress;
    hide TextMayFollow;
    hide SegmentMayFollow;
    if Fresh(s.actor, s.queue[0]) { HeadFollows(s); }
  }

  lemma AbsorbedProgress(st: State, st': State, received: seq<PipeEvent>, ev: PipeEvent)
    requires IsRunning(st) && Absorbed(st, st', ev) && Progress(st, received)
    requires ev.PipeAudioDelta? || ev.PipeSegment? || ev.PipeAlignment? ==> Spoke(received)
    ensures Progress(st', received + [ev])
  {
    hide ParseAll;
    hide OthersKept;
    Snoc(received, ev);
  }

  // The parse knows of a truncation only if there was one.
  lemma {:induction false} TruncatedIsSeen(trace: seq<Event>)
    requires ParseAll(trace).Open? && ParseAll(trace).run.truncated
    ensures ParseAll(trace).run.msg != 0 && WasTruncated(trace, ParseAll(trace).run.msg)
  {
    var front, e := trace[..|trace| - 1], trace[|trace| - 1];
    var p := ParseAll(front);
    if p.Open? && p.run.truncated {
      TruncatedIsSeen(front);
      var i :| 0 <= i < |front| && front[i].ItemTruncated? && front[i].item == p.run.msg;
      assert trace[i] == front[i];
      MessageStays(p.run, e);
    } else {
      TruncationShows(p, e);
      assert trace[|trace| - 1] == e;
    }
  }

  lemma MessageStays(o: Running, e: Event)
    requires o.truncated && Advance(Open(o), e).Open? && o.msg != 0
    ensures Advance(Open(o), e).run.msg == o.msg
  {
  }

  lemma TruncationShows(p: Parse, e: Event)
    requires Advance(p, e).Open? && Advance(p, e).run.truncated && !(p.Open? && p.run.truncated)
    ensures e.ItemTruncated? && e.item == Advance(p, e).run.msg != 0
  {
  }

  lemma AbsorbedFit(st: State, st': State, received: seq<PipeEvent>, sender: Sender, ev: PipeEvent, whole: bool)
    requires ActorInv(st') && IsRunning(st) && Absorbed(st, st', ev) && ItemsFit(st, whole)
    requires Progress(st', received) && Coherent(received, sender, whole)
    ensures ItemsFit(st', whole) && ItemsFit(st', false)
  {
    hide ParseAll;
    hide Coherent;
    hide TimerInv;
    hide Sound;
    hide Tiling;
    var o := ParseAll(st'.trace).run;
    forall ref | ref in st'.conv.index
      ensures Tiling(st'.conv.index[ref])
      ensures !WasTruncated(st'.trace, ref) ==> Sound(st'.conv.index[ref], whole) && Sound(st'.conv.index[ref], false)
    {
      var it := st'.conv.index[ref];
      if ref == st'.active.value.item {
        LogTiles(it, received, sender, whole);
        if o.truncated { TruncatedIsSeen(st'.trace); } else { LogIsSound(it, received, sender, whole); }
      } else if it.segments == [] {
        NoSegmentsFit(it);
      } else {
        TilingKept(st.conv.index[ref], it);
        if !WasTruncated(st'.trace, ref) {
          assert !WasTruncated(st.trace, ref);
          SoundKept(st.conv.index[ref], it, whole);
        }
      }
    }
  }

  // The segments of a coherent log tile, whatever became of the text.
  lemma LogTiles(it: Item, log: seq<PipeEvent>, sender: Sender, whole: bool)
    requires Coherent(log, sender, whole) && it.segments == SegmentsIn(log)
    ensures Tiling(it)
  {
    hide Coherent;
    SegmentsTile(log, sender, whole);
  }

  // An item that records what a coherent log says.
  lemma LogIsSound(it: Item, log: seq<PipeEvent>, sender: Sender, whole: bool)
    requires Coherent(log, sender, whole)
    requires it.view.text == TextIn(log) && it.audioBytes == AudioIn(log) && it.segments == SegmentsIn(log)
    ensures Sound(it, whole) && Sound(it, false)
  {
    hide Coherent;
    hide Truncation.RuneAligned;
    SegmentsTile(log, sender, whole);
    if whole { SegmentsFit(log, sender); }
  }

  // The state between taking a fact off the queue and acting on it.
  function Dequeued(s: System): System
    requires s.queue != []
  {
    var ev := s.queue[0];
    s.(queue := s.queue[1..], received := if Fresh(s.actor, ev) then s.received + [ev] else s.received)
  }

  lemma StaleKeeps(s: System)
    requires SysInv(s) && s.queue != [] && !Fresh(s.actor, s.queue[0])
    ensures SysInv(Moved(Dequeued(s), s.actor))
  {
    hide ActorInv;
    hide PipeInv;
    hide Progress;
    hide ItemsFit;
    hide GensGrow;
    ItemsFitWeaken(s.actor, !s.over);
    StaleQueue(s.queue, s.actor.activeGen);
  }

  // A fact of another generation is no part of the running response's.
  lemma StaleQueue(queue: seq<PipeEvent>, gen: Generation)
    requires queue != []
    ensures queue[0].gen != gen ==> Of(queue, gen) == Of(queue[1..], gen)
  {
  }

  lemma AbsorbedRun(s: System, st': State)
    requires SysInv(s) && s.queue != [] && Fresh(s.actor, s.queue[0])
    requires ActorInv(st') && Absorbed(s.actor, st', s.queue[0])
    ensures RunInv(Moved(Dequeued(s), st'))
    ensures Coherent(s.received + [s.queue[0]], LastPipe(s).sender, !LastPipe(s).stopped)
    ensures Progress(st', s.received + [s.queue[0]])
  {
    hide ActorInv;
    hide PipeInv;
    hide Progress;
    hide ItemsFit;
    hide TextMayFollow;
    hide SegmentMayFollow;
    hide Coherent;
    hide PipesInv;
    var ev := s.queue[0];
    HeadFollows(s);
    AbsorbedProgress(s.actor, st', s.received, ev);
    QueueShrinks(s.queue, s.actor.activeGen, s.received);
  }

  lemma QueueShrinks(queue: seq<PipeEvent>, gen: Generation, received: seq<PipeEvent>)
    requires queue != [] && queue[0].gen == gen
    ensures received + Of(queue, gen) == (received + [queue[0]]) + Of(queue[1..], gen)
  {
  }

  lemma AbsorbedKeeps(s: System, st': State)
    requires SysInv(s) && s.queue != [] && Fresh(s.actor, s.queue[0])
    requires ActorInv(st') && Absorbed(s.actor, st', s.queue[0])
    ensures SysInv(Moved(Dequeued(s), st'))
  {
    hide ActorInv;
    hide PipeInv;
    hide RunInv;
    hide ItemsFit;
    hide Progress;
    hide Coherent;
    hide OthersKept;
    hide Recorded;
    hide ParseAll;
    AbsorbedRun(s, st');
    StoppedOnlyIfClosed(s);
    var received := s.received + [s.queue[0]];
    if !s.closed { assert Coherent(received, LastPipe(s).sender, true); }
    else { CoherentAnyway(received, LastPipe(s).sender, !LastPipe(s).stopped); }
    if s.closed { ItemsFitWeaken(s.actor, !s.over); }
    AbsorbedFit(s.actor, st', received, LastPipe(s).sender, s.queue[0], !s.closed);
  }

  lemma StoppedOnlyIfClosed(s: System)
    requires RunInv(s) && IsRunning(s.actor)
    ensures s.pipes != [] && (!s.closed ==> !LastPipe(s).stopped)
  {
    hide Progress;
  }

  lemma CoherentAnyway(log: seq<PipeEvent>, sender: Sender, whole: bool)
    requires Coherent(log, sender, whole)
    ensures Coherent(log, sender, false)
  {
    if whole { CoherentWeaken(log, sender); }
  }

  lemma EndedKeeps(s: System, st': State)
    requires SysInv(s) && s.queue != [] && Good(s.actor, st') && st'.active.None?
    ensures SysInv(Moved(Dequeued(s), st'))
  {
    hide PipeInv;
    hide ItemsFit;
    hide ItemsKept;
    hide TimerInv;
    hide ResponseInv;
    hide GensGrow;
    var s1 := Dequeued(s);
    MovedPipes(s1, st');
    MovedFit(s.actor, st', !s.over);
  }

  lemma DeliverKeeps(s: System, isLetter: Rune -> bool)
    requires SysInv(s) && MayStep(s, Deliver)
    ensures SysInv(Take(s, isLetter, Deliver))
  {
    hide SysInv;
    hide OnPipeEvent;
    hide Absorbed;
    hide Good;
    hide Moved;
    hide Addressed;
    var ev := s.queue[0];
    var st' := OnPipeEvent(s.actor, ev);
    FreshIsAddressed(s);
    ActorHolds(s);
    OnPipeEventKeeps(s.actor, ev);
    assert Take(s, isLetter, Deliver) == Moved(Dequeued(s), st');
    if !Fresh(s.actor, ev) {
      StaleKeeps(s);
    } else if Absorbed(s.actor, st', ev) {
      AbsorbedKeeps(s, st');
    } else {
      EndedKeeps(s, st');
    }
  }

  lemma PipesAreWellFormed(s: System, i: nat)
    requires SysInv(s) && i < |s.pipes|
    ensures Sentences.WellFormed(s.pipes[i].splitter)
  {
    hide ActorInv;
    hide RunInv;
    hide ItemsFit;
    hide Coherent;
    assert PipeInv(s.pipes[i]);
  }

  lemma ActorHolds(s: System)
    requires SysInv(s)
    ensures ActorInv(s.actor)
  {
    hide ActorInv;
  }

  // ---- every run -----------------------------------------------------------------------------------------------

  lemma StepKeeps(s: System, isLetter: Rune -> bool, step: Step)
    requires SysInv(s) && MayStep(s, step)
    ensures SysInv(Take(s, isLetter, step))
  {
    hide SysInv;
    hide Handled;
    hide Moved;
    match step
    case Handle(input) =>
      ActorHolds(s);
      HandledIsGood(s.actor, input);
      MovedKeeps(s, Handled(s.actor, input));
    case Deliver => DeliverKeeps(s, isLetter);
    case Stage(i, a) => StageKeeps(s, isLetter, i, a);
    case CloseOutside => CloseKeeps(s);
  }

  lemma CloseKeeps(s: System)
    requires SysInv(s)
    ensures SysInv(s.(closed := true))
  {
    hide ActorInv;
    hide PipeInv;
    hide Progress;
    hide ItemsFit;
  }

  ghost predicate MayRun(s: System, isLetter: Rune -> bool, steps: seq<Step>)
    decreases |steps|
  {
    steps == [] || (MayStep(s, steps[0]) && MayRun(Take(s, isLetter, steps[0]), isLetter, steps[1..]))
  }

  ghost function Run(s: System, isLetter: Rune -> bool, steps: seq<Step>): System
    requires MayRun(s, isLetter, steps)
    decreases |steps|
  {
    if steps == [] then s else Run(Take(s, isLetter, steps[0]), isLetter, steps[1..])
  }

  lemma {:induction false} RunKeeps(s: System, isLetter: Rune -> bool, steps: seq<Step>)
    requires SysInv(s) && MayRun(s, isLetter, steps)
    ensures SysInv(Run(s, isLetter, steps))
    decreases |steps|
  {
    hide SysInv;
    hide Take;
    hide MayStep;
    if steps != [] {
      StepKeeps(s, isLetter, steps[0]);
      RunKeeps(Take(s, isLetter, steps[0]), isLetter, steps[1..]);
    }
  }
}
