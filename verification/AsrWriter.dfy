// The DashScope recognition stream's writer: one task at a time, audio only
// while a task runs (internal/provider/qwen/asr.go:248-502). Failed writes and
// Close end the writer and are left out.
module AsrWriter {
  import opened Audio
  import opened AsrTimeline

  const KEEP_ALIVE_MS: nat := 20

  // What crosses the socket, both ways, and the finalize timeout.
  datatype Wire =
    | SentRun
    | SentAudio(pcm: Bytes)
    | SentSilence
    | SentFinish
    | GotStarted
    | GotFinished
    | TimedOut

  // ---- the protocol ------------------------------------------------------------------------------

  datatype Phase = NoTask | Opening | Recognizing | Finishing | Broken

  // What a history amounts to: where the current task stands and what it is
  // made of, the pushed audio of all ended tasks, every frame ever written.
  datatype Ledger = Ledger(phase: Phase, task: seq<Slot>, endedMs: nat, written: seq<Bytes>)

  function Next(l: Ledger, w: Wire): Ledger {
    match w
    case SentRun => if l.phase.NoTask? then l.(phase := Opening, task := []) else l.(phase := Broken)
    case GotStarted => if l.phase.Opening? then l.(phase := Recognizing) else l.(phase := Broken)
    case SentAudio(pcm) =>
      if l.phase.Recognizing? then l.(task := l.task + [Voice(BytesToMs(|pcm|))], written := l.written + [pcm])
      else l.(phase := Broken)
    case SentSilence =>
      if l.phase.Recognizing? then l.(task := l.task + [Pad(KEEP_ALIVE_MS)]) else l.(phase := Broken)
    case SentFinish =>
      if l.phase.Recognizing? && ServiceMs(l.task) > 0 then l.(phase := Finishing) else l.(phase := Broken)
    case GotFinished => Ended(l)
    case TimedOut => Ended(l)
  }

  function Ended(l: Ledger): Ledger {
    if l.phase.Finishing? then l.(phase := NoTask, endedMs := l.endedMs + PushedMs(l.task)) else l.(phase := Broken)
  }

  function Read(history: seq<Wire>): Ledger {
    if history == [] then Ledger(NoTask, [], 0, []) else Next(Read(history[..|history| - 1]), history[|history| - 1])
  }

  ghost predicate Proper(history: seq<Wire>) {
    !Read(history).phase.Broken?
  }

  lemma ReadSnoc(history: seq<Wire>, w: Wire)
    ensures Read(history + [w]) == Next(Read(history), w)
  {
    assert (history + [w])[..|history|] == history;
  }

  lemma {:induction false} ProperPrefix(history: seq<Wire>, n: nat)
    requires Proper(history) && n <= |history|
    ensures Proper(history[..n])
    decreases |history|
  {
    if n == |history| {
      assert history[..n] == history;
    } else {
      var front := history[..|history| - 1];
      ProperPrefix(front, n);
      assert front[..n] == history[..n];
    }
  }

  // Since history[j] nothing but audio and silence has been written.
  ghost predicate OnlyAudioSince(history: seq<Wire>, j: nat) {
    && j < |history| && history[j].GotStarted?
    && forall k :: j < k < |history| ==> history[k].SentAudio? || history[k].SentSilence?
  }

  lemma {:induction false} TaskIsOpen(history: seq<Wire>)
    requires Read(history).phase.Recognizing?
    ensures exists j :: OnlyAudioSince(history, j)
  {
    var front, w := history[..|history| - 1], history[|history| - 1];
    if w.GotStarted? {
      assert OnlyAudioSince(history, |history| - 1);
    } else {
      TaskIsOpen(front);
      var j :| OnlyAudioSince(front, j);
      assert forall k :: 0 <= k < |front| ==> history[k] == front[k];
      assert OnlyAudioSince(history, j);
    }
  }

  // In a proper history every frame, audio or silence, is written between its
  // task's task-started and its finish-task.
  lemma AudioOnlyInsideTasks(history: seq<Wire>, i: nat)
    requires Proper(history) && i < |history| && (history[i].SentAudio? || history[i].SentSilence?)
    ensures exists j :: OnlyAudioSince(history[..i], j)
  {
    ProperPrefix(history, i + 1);
    assert history[..i + 1] == history[..i] + [history[i]];
    ReadSnoc(history[..i], history[i]);
    TaskIsOpen(history[..i]);
  }

  // In a proper history no finish-task is sent for an empty task.
  lemma NoEmptyFinish(history: seq<Wire>, i: nat)
    requires Proper(history) && i < |history| && history[i].SentFinish?
    ensures ServiceMs(Read(history[..i]).task) > 0
  {
    ProperPrefix(history, i + 1);
    assert history[..i + 1] == history[..i] + [history[i]];
    ReadSnoc(history[..i], history[i]);
  }

  // ---- the stream --------------------------------------------------------------------------------------

  class AsrStream {
    const queueFrames: nat
    var started: bool
    var finalizing: bool
    var pending: bool
    var sentMs: nat
    var padMs: nat
    var gaps: seq<Gap>
    var baseMs: nat
    var queue: seq<Bytes>
    var asked: bool
    var endOfTurns: nat

    ghost var history: seq<Wire>
    ghost var pushed: seq<Bytes>

    // Everything but the pending request, which beginFinalize settles.
    ghost predicate Core()
      reads this
    {
      var l := Read(history);
      && l.phase == (if !started then Opening else if finalizing then Finishing else Recognizing)
      && (finalizing ==> started)
      && sentMs == PushedMs(l.task) && padMs == PadMs(l.task) && gaps == GapsOf(l.task)
      && baseMs == l.endedMs
      && l.written + queue == pushed
    }

    // A request stays pending only until recognition has started.
    ghost predicate Valid()
      reads this
    {
      Core() && (pending ==> !started || finalizing)
    }

    // Opens the stream with a first run-task.
    constructor (queueFrames: nat)
      ensures Valid() && pushed == [] && history == [SentRun]
    {
      this.queueFrames := queueFrames;
      started, finalizing, pending, sentMs, padMs, gaps, baseMs := false, false, false, 0, 0, [], 0;
      queue, asked, endOfTurns := [], false, 0;
      history, pushed := [SentRun], [];
      new;
      ReadSnoc([], SentRun);
      assert [] + [SentRun] == [SentRun];
    }

    // A full queue refuses the frame.
    method PushAudio(pcm: Bytes) returns (ok: bool)
      requires Valid()
      modifies this`queue, this`pushed
      ensures Valid() && ok == (|old(queue)| < queueFrames)
      ensures pushed == old(pushed) + (if ok then [pcm] else [])
      ensures queue == old(queue) + (if ok then [pcm] else [])
    {
      ok := Push(pcm);
    }

    method Push(pcm: Bytes) returns (ok: bool)
      requires Core()
      modifies this`queue, this`pushed
      ensures Core() && ok == (|old(queue)| < queueFrames)
      ensures pushed == old(pushed) + (if ok then [pcm] else [])
      ensures queue == old(queue) + (if ok then [pcm] else [])
    {
      ok := |queue| < queueFrames;
      if ok {
        queue, pushed := queue + [pcm], pushed + [pcm];
        assert Read(history).written + queue == Read(history).written + old(queue) + [pcm];
      }
    }

    // At most one request waits.
    method Finalize()
      requires Valid()
      modifies this`asked
      ensures Valid() && asked
    {
      asked := true;
    }

    method WriteAudio(pcm: Bytes)
      requires Core() && started && !finalizing && queue != [] && queue[0] == pcm
      modifies this`queue, this`sentMs, this`history
      ensures Core() && history == old(history) + [SentAudio(pcm)] && queue == old(queue)[1..]
    {
      hide Read;
      hide GapsOf;
      hide ServiceMs;
      hide PushedMs;
      hide PadMs;
      ReadSnoc(history, SentAudio(pcm));
      SlotSnoc(Read(history).task, Voice(BytesToMs(|pcm|)));
      queue := queue[1..];
      history := history + [SentAudio(pcm)];
      sentMs := sentMs + BytesToMs(|pcm|);
      assert old(queue) == [pcm] + queue;
    }

    // Whatever callers do between two steps of the writer: push any number of
    // frames up to room, and ask for recognition to end.
    method World(room: nat) returns (left: nat)
      requires Core()
      modifies this`queue, this`pushed, this`asked
      ensures Core() && left <= room && |queue| + left <= |old(queue)| + room
      ensures old(pushed) <= pushed && (old(asked) ==> asked) && old(queue) <= queue
    {
      left := room;
      var more: bool := *;
      while left > 0 && more
        invariant Core() && left <= room && |queue| + left <= |old(queue)| + room
        invariant old(pushed) <= pushed && (old(asked) ==> asked) && old(queue) <= queue
        decreases left
      {
        var pcm: Bytes := *;
        var ok := Push(pcm);
        left := left - 1;
        more := *;
      }
      var ask: bool := *;
      if ask { asked := true; }
    }

    // Flushes what is queued, with whatever arrives meanwhile, then sends
    // finish-task, unless nothing was written. arrivals bounds the frames that
    // arrive during the flush.
    method BeginFinalize(arrivals: nat)
      requires Core() && started && !finalizing
      modifies this`queue, this`pushed, this`asked, this`sentMs, this`history, this`pending, this`endOfTurns,
               this`finalizing
      ensures Core() && queue == [] && started && old(pushed) <= pushed && (old(asked) ==> asked)
      ensures old(queue) == [] ==>
                && asked == old(asked) && pushed == old(pushed) && sentMs == old(sentMs)
                && history == old(history) + (if finalizing then [SentFinish] else [])
      ensures Read(history).written == pushed
      ensures finalizing == (sentMs + padMs > 0)
      ensures if finalizing then endOfTurns == old(endOfTurns) && pending == old(pending)
              else endOfTurns == old(endOfTurns) + 1 && !pending
    {
      hide Read;
      hide GapsOf;
      hide ServiceMs;
      hide PushedMs;
      hide PadMs;
      var room := arrivals;
      while queue != []
        invariant Core() && started && !finalizing && endOfTurns == old(endOfTurns) && pending == old(pending)
        invariant old(pushed) <= pushed && (old(asked) ==> asked)
        invariant old(queue) == [] ==>
                    && queue == [] && asked == old(asked) && pushed == old(pushed)
                    && sentMs == old(sentMs) && history == old(history)
        decreases |queue| + room
      {
        WriteAudio(queue[0]);
        room := World(room);
      }
      assert Read(history).written + [] == Read(history).written;
      if sentMs + padMs == 0 {
        pending := false;
        endOfTurns := endOfTurns + 1;
      } else {
        Lengths(Read(history).task);
        ReadSnoc(history, SentFinish);
        history := history + [SentFinish];
        finalizing := true;
      }
    }

    // One recognition task has ended, the next begins.
    method Restart(ghost how: Wire)
      requires Valid() && finalizing && (how.GotFinished? || how.TimedOut?)
      modifies this`baseMs, this`gaps, this`sentMs, this`padMs, this`started, this`finalizing, this`pending,
               this`history
      ensures Valid() && !started && !finalizing && !pending && queue == old(queue)
      ensures baseMs == old(baseMs) + old(sentMs) && sentMs == 0 && padMs == 0 && gaps == []
      ensures history == old(history) + [how] + [SentRun]
    {
      hide Read;
      hide GapsOf;
      hide PushedMs;
      hide PadMs;
      ReadSnoc(history, how);
      ReadSnoc(history + [how], SentRun);
      NoSlots();
      baseMs := baseMs + sentMs;
      gaps := [];
      sentMs, padMs := 0, 0;
      started, finalizing, pending := false, false, false;
      history := history + [how] + [SentRun];
    }

    // ---- the writer's cases --------------------------------------------------------------------------

    // One task-started answers each run-task.
    method OnStarted(arrivals: nat)
      requires Valid() && !started
      modifies this
      ensures Valid() && started && old(pushed) <= pushed && baseMs == old(baseMs)
      ensures old(pending) ==> queue == [] && finalizing == (sentMs + padMs > 0)
      ensures endOfTurns == old(endOfTurns) + (if old(pending) && !finalizing then 1 else 0)
      ensures !old(pending) ==>
                && history == old(history) + [GotStarted] && !pending && !finalizing
                && queue == old(queue) && pushed == old(pushed) && asked == old(asked)
    {
      ReadSnoc(history, GotStarted);
      history := history + [GotStarted];
      started := true;
      if pending { BeginFinalize(arrivals); }
    }

    // One task-finished answers each finish-task; the reader has told the
    // session by now.
    method OnFinished()
      requires Valid() && finalizing
      modifies this`baseMs, this`gaps, this`sentMs, this`padMs, this`started, this`finalizing, this`pending,
               this`history, this`endOfTurns
      ensures Valid() && !started && !finalizing && !pending && sentMs == 0
      ensures history == old(history) + [GotFinished] + [SentRun]
      ensures baseMs == old(baseMs) + old(sentMs) && endOfTurns == old(endOfTurns) + 1
    {
      endOfTurns := endOfTurns + 1;
      Restart(GotFinished);
    }

    method OnFinalize(arrivals: nat)
      requires Valid() && asked
      modifies this
      ensures Valid() && old(pushed) <= pushed && baseMs == old(baseMs)
      ensures old(started) && !old(finalizing) ==> queue == []
      ensures finalizing == (old(finalizing) || (old(started) && sentMs + padMs > 0))
      ensures !old(started) || old(finalizing) ==>
                && !asked && pending == (!old(started) || old(pending)) && queue == old(queue)
                && history == old(history) && pushed == old(pushed)
      ensures old(queue) == [] ==> !asked
      ensures endOfTurns == old(endOfTurns) + (if old(started) && !finalizing then 1 else 0)
    {
      asked := false;
      if finalizing { return; }
      if !started {
        pending := true;
        return;
      }
      BeginFinalize(arrivals);
    }

    // No task-finished in time.
    method OnDeadline()
      requires Valid() && finalizing
      modifies this`baseMs, this`gaps, this`sentMs, this`padMs, this`started, this`finalizing, this`pending,
               this`history, this`endOfTurns
      ensures Valid() && !started && !finalizing && !pending && sentMs == 0
      ensures history == old(history) + [TimedOut] + [SentRun]
      ensures baseMs == old(baseMs) + old(sentMs) && endOfTurns == old(endOfTurns) + 1
    {
      endOfTurns := endOfTurns + 1;
      Restart(TimedOut);
    }

    method OnAudio()
      requires Valid() && started && !finalizing && queue != []
      modifies this`queue, this`sentMs, this`history
      ensures Valid() && history == old(history) + [SentAudio(old(queue)[0])] && queue == old(queue)[1..]
    {
      WriteAudio(queue[0]);
    }

    // No audio for a while: one silent frame keeps recognition alive.
    method OnKeepAlive()
      requires Valid() && started && !finalizing
      modifies this`gaps, this`padMs, this`history
      ensures Valid() && history == old(history) + [SentSilence]
      ensures gaps == old(gaps) + [Gap(old(sentMs) + old(padMs), 20)] && padMs == old(padMs) + 20
    {
      hide Read;
      hide GapsOf;
      hide ServiceMs;
      hide PushedMs;
      hide PadMs;
      ReadSnoc(history, SentSilence);
      var l := Read(history);
      SlotSnoc(l.task, Pad(KEEP_ALIVE_MS));
      Lengths(l.task);
      history := history + [SentSilence];
      gaps := gaps + [Gap(sentMs + padMs, KEEP_ALIVE_MS)];
      padMs := padMs + KEEP_ALIVE_MS;
    }

    // emitSentence: a result's offsets on the timeline of all pushed audio. A
    // result is dropped if its text is empty and interim; an absent offset stands
    // for where the recognition task began; an interim result has no end of its own.
    method EmitSentence(empty: bool, final: bool, beginTime: Time, endTime: Time)
      returns (emitted: bool, startMs: int, endMs: int)
      requires Valid()
      ensures emitted <==> !empty || final
      ensures emitted ==> startMs == OnTimeline(beginTime) && endMs == (if final then OnTimeline(endTime) else startMs)
      ensures emitted && InTask(beginTime) ==> baseMs <= startMs <= baseMs + sentMs
      ensures emitted && InTask(endTime) && final ==> baseMs <= endMs <= baseMs + sentMs
      ensures emitted && final && InTask(beginTime) && InTask(endTime) && Before(beginTime, endTime)
              ==> startMs <= endMs
    {
      if empty && !final { return false, 0, 0; }
      emitted := true;
      startMs, endMs := baseMs, baseMs;
      if beginTime.At? {
        var from := Unpad(gaps, beginTime.ms);
        startMs := baseMs + from;
      }
      if endTime.At? {
        var until := Unpad(gaps, endTime.ms);
        endMs := baseMs + until;
      }
      if !final { endMs := startMs; }
      ghost var task := Read(history).task;
      Lengths(task);
      UnpadZero(task);
      if beginTime.At? && InTask(beginTime) { UnpadIsMonotone(task, beginTime.ms, beginTime.ms); }
      if endTime.At? && InTask(endTime) { UnpadIsMonotone(task, endTime.ms, endTime.ms); }
      if beginTime.At? && endTime.At? && Before(beginTime, endTime) { UnpadIsMonotone(task, beginTime.ms, endTime.ms); }
    }

    // Where an offset of the current task lies on the timeline of pushed audio.
    function OnTimeline(t: Time): int
      reads this
    {
      match t
      case Absent => baseMs
      case At(ms) => baseMs + Unpadded(gaps, ms)
    }

    // The offset is inside the current task as the service sees it.
    predicate InTask(t: Time)
      reads this
    {
      t.At? ==> 0 <= t.ms <= sentMs + padMs
    }

    // ---- any schedule -----------------------------------------------------------------------------------

    // One turn of the writer's loop, whatever its select picks of what is ready.
    // One task-started answers each run-task, one task-finished each finish-task.
    method Turn(arrivals: nat)
      requires Valid()
      modifies this
      ensures Valid() && old(pushed) <= pushed
    {
      var room := World(arrivals);
      var pick: int := *;
      if pick == 0 && !started {
        OnStarted(room);
      } else if pick == 1 && finalizing {
        OnFinished();
      } else if pick == 2 && finalizing {
        OnDeadline();
      } else if pick == 3 && asked {
        OnFinalize(room);
      } else if pick == 4 && started && !finalizing && queue != [] {
        OnAudio();
      } else if pick == 5 && started && !finalizing {
        OnKeepAlive();
      }
    }

    // Any number of turns, with any pushes and requests between and during them:
    // what crossed the socket is proper, every frame pushed has been written or
    // is queued, in order, and baseMs is the audio of all ended tasks.
    method Loop(turns: nat)
      requires Valid()
      modifies this
      ensures Valid() && old(pushed) <= pushed
      ensures Proper(history)
      ensures Read(history).written + queue == pushed
      ensures baseMs + sentMs == FramesMs(Read(history).written)
    {
      for i := 0 to turns
        invariant Valid() && old(pushed) <= pushed
      {
        var arrivals: int := *;
        Turn(if arrivals < 0 then 0 else arrivals);
      }
      LedgerBalances(history);
    }
  }

  // An offset a result may leave out.
  datatype Time = Absent | At(ms: int)

  // An absent offset stands for where the recognition task began.
  predicate Before(a: Time, b: Time) {
    (if a.At? then a.ms else 0) <= (if b.At? then b.ms else 0)
  }

  lemma NoSlots()
    ensures PushedMs([]) == 0 && PadMs([]) == 0 && GapsOf([]) == []
  {
  }

  lemma SlotSnoc(task: seq<Slot>, slot: Slot)
    ensures PushedMs(task + [slot]) == PushedMs(task) + (if slot.Voice? then slot.ms else 0)
    ensures PadMs(task + [slot]) == PadMs(task) + (if slot.Pad? then slot.ms else 0)
    ensures ServiceMs(task + [slot]) == ServiceMs(task) + slot.ms
    ensures GapsOf(task + [slot]) == GapsOf(task) + (if slot.Pad? then [Gap(ServiceMs(task), slot.ms)] else [])
  {
    assert (task + [slot])[..|task|] == task;
  }

  // ---- what the ledger adds up to --------------------------------------------------------------------

  // Milliseconds of pushed audio in a sequence of frames.
  function FramesMs(frames: seq<Bytes>): nat {
    if frames == [] then 0 else FramesMs(frames[..|frames| - 1]) + BytesToMs(|frames[|frames| - 1]|)
  }

  // The ended tasks and the current one together hold every frame written.
  lemma {:induction false} LedgerBalances(history: seq<Wire>)
    requires Proper(history)
    ensures var l := Read(history);
            FramesMs(l.written) == l.endedMs + (if l.phase.NoTask? then 0 else PushedMs(l.task))
  {
    if history != [] {
      var front, w := history[..|history| - 1], history[|history| - 1];
      ProperPrefix(history, |history| - 1);
      LedgerBalances(front);
      var l := Read(front);
      if w.SentAudio? {
        SlotSnoc(l.task, Voice(BytesToMs(|w.pcm|)));
        assert (l.written + [w.pcm])[..|l.written|] == l.written;
      }
      if w.SentSilence? { SlotSnoc(l.task, Pad(KEEP_ALIVE_MS)); }
    }
  }
}
