// Commands and audio travel on two queues; the actor puts them back into the
// order in which they were posted (internal/session/session.go:228-259,
// 301-396). There is one producer: numbering and enqueueing are one step.
module Arrival {
  import opened Audio
  import opened Events

  datatype Entry = PostedCommand(cmd: Command) | PostedAudio(pcm: Bytes)

  datatype CmdEnvelope = CmdEnvelope(number: nat, cmd: Command)
  datatype AudioFrame = AudioFrame(number: nat, pcm: Bytes)

  // ---- what is still to be handled ---------------------------------------------------------------

  // The commands among posted[k..], numbered from 1.
  function CommandsAfter(posted: seq<Entry>, k: nat): (es: seq<CmdEnvelope>)
    requires k <= |posted|
    decreases |posted| - k
  {
    if k == |posted| then []
    else (if posted[k].PostedCommand? then [CmdEnvelope(k + 1, posted[k].cmd)] else []) + CommandsAfter(posted, k + 1)
  }

  // The audio among posted[k..].
  function FramesAfter(posted: seq<Entry>, k: nat): (fs: seq<AudioFrame>)
    requires k <= |posted|
    decreases |posted| - k
  {
    if k == |posted| then []
    else (if posted[k].PostedAudio? then [AudioFrame(k + 1, posted[k].pcm)] else []) + FramesAfter(posted, k + 1)
  }

  lemma {:induction false} CommandsExtend(posted: seq<Entry>, e: Entry, k: nat)
    requires k <= |posted|
    ensures CommandsAfter(posted + [e], k)
         == CommandsAfter(posted, k) + (if e.PostedCommand? then [CmdEnvelope(|posted| + 1, e.cmd)] else [])
    decreases |posted| - k
  {
    if k < |posted| {
      CommandsExtend(posted, e, k + 1);
    } else {
      assert CommandsAfter(posted + [e], k + 1) == [];
    }
  }

  lemma {:induction false} FramesExtend(posted: seq<Entry>, e: Entry, k: nat)
    requires k <= |posted|
    ensures FramesAfter(posted + [e], k)
         == FramesAfter(posted, k) + (if e.PostedAudio? then [AudioFrame(|posted| + 1, e.pcm)] else [])
    decreases |posted| - k
  {
    if k < |posted| {
      FramesExtend(posted, e, k + 1);
    } else {
      assert FramesAfter(posted + [e], k + 1) == [];
    }
  }

  lemma {:induction false} HeadsAreNumbered(posted: seq<Entry>, k: nat)
    requires k <= |posted|
    ensures var cs := CommandsAfter(posted, k);
            cs != [] ==> k < cs[0].number <= |posted| && posted[cs[0].number - 1] == PostedCommand(cs[0].cmd)
    ensures var fs := FramesAfter(posted, k);
            fs != [] ==> k < fs[0].number <= |posted| && posted[fs[0].number - 1] == PostedAudio(fs[0].pcm)
    decreases |posted| - k
  {
    hide CommandsAfter;
    hide FramesAfter;
    NextIsHead(posted, k);
    if k < |posted| {
      HeadsAreNumbered(posted, k + 1);
    }
  }

  // The smaller of the two heads is the next entry.
  lemma NextIsHead(posted: seq<Entry>, k: nat)
    requires k <= |posted|
    ensures k < |posted| && posted[k].PostedCommand? ==>
              var cs := CommandsAfter(posted, k);
              cs != [] && cs[0] == CmdEnvelope(k + 1, posted[k].cmd)
              && CommandsAfter(posted, k + 1) == cs[1..] && FramesAfter(posted, k + 1) == FramesAfter(posted, k)
    ensures k < |posted| && posted[k].PostedAudio? ==>
              var fs := FramesAfter(posted, k);
              fs != [] && fs[0] == AudioFrame(k + 1, posted[k].pcm)
              && FramesAfter(posted, k + 1) == fs[1..] && CommandsAfter(posted, k + 1) == CommandsAfter(posted, k)
    ensures k == |posted| ==> CommandsAfter(posted, k) == [] && FramesAfter(posted, k) == []
  {
  }

  ghost predicate Increasing(numbers: seq<nat>) {
    forall i, j :: 0 <= i < j < |numbers| ==> numbers[i] < numbers[j]
  }

  ghost predicate Prefix(numbers: seq<nat>) {
    forall i :: 0 <= i < |numbers| ==> numbers[i] == i + 1
  }

  lemma PrefixIncreases(numbers: seq<nat>)
    requires Prefix(numbers)
    ensures Increasing(numbers)
  {
  }

  function AsSeq<T>(o: Option<T>): seq<T> {
    if o.Some? then [o.value] else []
  }

  // ---- the two queues -----------------------------------------------------------------------------

  class Inbox {
    const cmdCap: nat
    const audioCap: nat
    var number: nat
    var cmds: seq<CmdEnvelope>
    var audioIn: seq<AudioFrame>
    var stashCmd: Option<CmdEnvelope>
    var stashAudio: Option<AudioFrame>
    var cancelled: bool

    // Everything accepted so far, the numbers handled so far, and what the
    // actor has taken to handle but not yet handled.
    ghost var posted: seq<Entry>
    ghost var handled: seq<nat>
    ghost var heldCmd: seq<CmdEnvelope>
    ghost var heldAudio: seq<AudioFrame>

    constructor (cmdCap: nat, audioCap: nat)
      ensures AtHead() && !cancelled && posted == [] && handled == []
    {
      this.cmdCap, this.audioCap := cmdCap, audioCap;
      number, cmds, audioIn, stashCmd, stashAudio, cancelled := 0, [], [], None, None, false;
      posted, handled, heldCmd, heldAudio := [], [], [], [];
    }

    // Commands taken in but not handled, and frames.
    ghost function CommandLine(): seq<CmdEnvelope>
      reads this
    {
      heldCmd + AsSeq(stashCmd) + cmds
    }

    ghost function AudioLine(): seq<AudioFrame>
      reads this
    {
      heldAudio + AsSeq(stashAudio) + audioIn
    }

    // What has been handled is a prefix of what was posted, and all the rest is
    // waiting, each kind in order.
    ghost predicate Merged()
      reads this
    {
      && number == |posted|
      && Prefix(handled) && |handled| <= |posted|
      && CommandLine() == CommandsAfter(posted, |handled|)
      && AudioLine() == FramesAfter(posted, |handled|)
    }

    // A loop head of a live session.
    ghost predicate AtHead()
      reads this
    {
      Merged() && heldCmd == [] && heldAudio == [] && (stashCmd.None? || stashAudio.None?)
    }

    // ---- the producer --------------------------------------------------------------------------------

    // Blocks while the queue is full, which here means it does not happen.
    method Post(cmd: Command) returns (ok: bool)
      requires |cmds| < cmdCap && Merged()
      modifies this`number, this`cmds, this`posted
      ensures Merged() && ok == !cancelled
      ensures posted == old(posted) + (if ok then [PostedCommand(cmd)] else [])
    {
      hide CommandsAfter;
      hide FramesAfter;
      if cancelled { return false; }
      CommandsExtend(posted, PostedCommand(cmd), |handled|);
      FramesExtend(posted, PostedCommand(cmd), |handled|);
      number := number + 1;
      cmds := cmds + [CmdEnvelope(number, cmd)];
      posted := posted + [PostedCommand(cmd)];
      ok := true;
      assert CommandLine() == old(CommandLine()) + [CmdEnvelope(number, cmd)];
    }

    // A full queue closes the session.
    method PostAudio(pcm: Bytes) returns (ok: bool)
      requires Merged()
      modifies this`number, this`audioIn, this`posted, this`cancelled
      ensures Merged()
      ensures ok == (!old(cancelled) && |old(audioIn)| < audioCap)
      ensures cancelled == !ok
      ensures posted == old(posted) + (if ok then [PostedAudio(pcm)] else [])
    {
      hide CommandsAfter;
      hide FramesAfter;
      if cancelled { return false; }
      if |audioIn| >= audioCap {
        cancelled := true;
        return false;
      }
      CommandsExtend(posted, PostedAudio(pcm), |handled|);
      FramesExtend(posted, PostedAudio(pcm), |handled|);
      number := number + 1;
      audioIn := audioIn + [AudioFrame(number, pcm)];
      posted := posted + [PostedAudio(pcm)];
      ok := true;
      assert AudioLine() == old(AudioLine()) + [AudioFrame(number, pcm)];
    }

    // Whatever happens between two steps of the actor: the producer posts any
    // number of times, the session may be closed.
    method World()
      requires Merged()
      modifies this`number, this`cmds, this`audioIn, this`posted, this`cancelled
      ensures Merged() && old(posted) <= posted && (old(cancelled) ==> cancelled)
    {
      var posts: int := *;
      while posts > 0
        invariant Merged() && old(posted) <= posted && (old(cancelled) ==> cancelled)
      {
        var e: Entry := *;
        match e {
          case PostedCommand(cmd) => if |cmds| < cmdCap { var ok := Post(cmd); }
          case PostedAudio(pcm) => var ok := PostAudio(pcm);
        }
        posts := posts - 1;
      }
      var close: bool := *;
      if close { cancelled := true; }
    }

    // ---- the actor ------------------------------------------------------------------------------------

    // handleCommand; it may close the session.
    method HandleCommand(env: CmdEnvelope)
      requires Merged() && heldCmd == [env]
      modifies this`handled, this`heldCmd, this`cancelled
      ensures handled == old(handled) + [env.number] && heldCmd == [] && (old(cancelled) ==> cancelled)
      ensures 0 < env.number <= |posted| && posted[env.number - 1] == PostedCommand(env.cmd)
      ensures env.number == |old(handled)| + 1 ==> Merged()
    {
      hide CommandsAfter;
      hide FramesAfter;
      assert CommandLine() == [env] + (AsSeq(stashCmd) + cmds);
      FirstCommand(env);
      NextIsHead(posted, |handled|);
      handled := handled + [env.number];
      heldCmd := [];
      assert CommandLine() == AsSeq(stashCmd) + cmds;
      var close: bool := *;
      if close { cancelled := true; }
    }

    // handleAudio.
    method HandleAudio(fr: AudioFrame)
      requires Merged() && heldAudio == [fr]
      modifies this`handled, this`heldAudio, this`cancelled
      ensures handled == old(handled) + [fr.number] && heldAudio == [] && (old(cancelled) ==> cancelled)
      ensures 0 < fr.number <= |posted| && posted[fr.number - 1] == PostedAudio(fr.pcm)
      ensures fr.number == |old(handled)| + 1 ==> Merged()
    {
      hide CommandsAfter;
      hide FramesAfter;
      assert AudioLine() == [fr] + (AsSeq(stashAudio) + audioIn);
      FirstFrame(fr);
      NextIsHead(posted, |handled|);
      handled := handled + [fr.number];
      heldAudio := [];
      assert AudioLine() == AsSeq(stashAudio) + audioIn;
      var close: bool := *;
      if close { cancelled := true; }
    }

    // env and fr are the first of their kind still to be handled; the one with
    // the smaller number is next.
    lemma FirstCommand(env: CmdEnvelope)
      requires Merged() && CommandLine() != [] && CommandLine()[0] == env
      ensures |handled| < env.number <= |posted| && posted[env.number - 1] == PostedCommand(env.cmd)
    {
      HeadsAreNumbered(posted, |handled|);
    }

    lemma FirstFrame(fr: AudioFrame)
      requires Merged() && AudioLine() != [] && AudioLine()[0] == fr
      ensures |handled| < fr.number <= |posted| && posted[fr.number - 1] == PostedAudio(fr.pcm)
    {
      HeadsAreNumbered(posted, |handled|);
    }

    lemma CommandIsNext(env: CmdEnvelope)
      requires Merged() && CommandLine() != [] && CommandLine()[0] == env
      requires AudioLine() != [] ==> env.number <= AudioLine()[0].number
      ensures env.number == |handled| + 1
      ensures AudioLine() != [] ==> env.number < AudioLine()[0].number
    {
      FirstCommand(env);
      if AudioLine() != [] { FirstFrame(AudioLine()[0]); }
      NextIsHead(posted, |handled|);
    }

    lemma FrameIsNext(fr: AudioFrame)
      requires Merged() && AudioLine() != [] && AudioLine()[0] == fr
      requires CommandLine() != [] ==> fr.number <= CommandLine()[0].number
      ensures fr.number == |handled| + 1
      ensures CommandLine() != [] ==> fr.number < CommandLine()[0].number
    {
      FirstFrame(fr);
      if CommandLine() != [] { FirstCommand(CommandLine()[0]); }
      NextIsHead(posted, |handled|);
    }

    // Holding env, nothing in the command stash.
    ghost predicate Holding(env: CmdEnvelope)
      reads this
    {
      Merged() && heldCmd == [env] && heldAudio == [] && stashCmd.None? && |handled| < env.number
    }

    // Puts the oldest frame into the stash, if there is one.
    method FillAudioStash() returns (found: bool)
      requires Merged()
      modifies this`stashAudio, this`audioIn
      ensures Merged() && found == stashAudio.Some?
      ensures !found ==> audioIn == [] && stashAudio.None?
    {
      if stashAudio.None? {
        if audioIn == [] { return false; }
        stashAudio, audioIn := Some(audioIn[0]), audioIn[1..];
        assert AudioLine() == old(AudioLine());
      }
      found := true;
    }

    method FillCommandStash() returns (found: bool)
      requires Merged()
      modifies this`stashCmd, this`cmds
      ensures Merged() && found == stashCmd.Some?
      ensures !found ==> cmds == [] && stashCmd.None?
    {
      if stashCmd.None? {
        if cmds == [] { return false; }
        stashCmd, cmds := Some(cmds[0]), cmds[1..];
        assert CommandLine() == old(CommandLine());
      }
      found := true;
    }

    // The stashed frame is taken in hand.
    method TakeStashedAudio() returns (fr: AudioFrame)
      requires Merged() && stashAudio.Some? && heldAudio == []
      modifies this`stashAudio, this`heldAudio
      ensures Merged() && fr == old(stashAudio).value && heldAudio == [fr] && stashAudio.None?
    {
      fr := stashAudio.value;
      stashAudio := None;
      heldAudio := [fr];
      assert AudioLine() == old(AudioLine());
    }

    method TakeStashedCommand() returns (env: CmdEnvelope)
      requires Merged() && stashCmd.Some? && heldCmd == []
      modifies this`stashCmd, this`heldCmd
      ensures Merged() && env == old(stashCmd).value && heldCmd == [env] && stashCmd.None?
    {
      env := stashCmd.value;
      stashCmd := None;
      heldCmd := [env];
      assert CommandLine() == old(CommandLine());
    }

    // Handles every frame posted before env; a cancellation may cut it short.
    method DrainAudioBefore(env: CmdEnvelope)
      requires Holding(env)
      modifies this
      ensures Holding(env) && (cancelled || env.number == |handled| + 1)
      ensures old(handled) <= handled && (old(cancelled) ==> cancelled)
    {
      hide CommandsAfter;
      hide FramesAfter;
      while !cancelled
        invariant Holding(env) && old(handled) <= handled && (old(cancelled) ==> cancelled)
        decreases env.number - |handled|
      {
        World();
        var found := FillAudioStash();
        if !found || stashAudio.value.number > env.number {
          CommandIsNext(env);
          return;
        }
        FrameIsNext(stashAudio.value);
        var fr := TakeStashedAudio();
        HandleAudio(fr);
        World();
      }
    }

    // Holding fr, nothing in the audio stash.
    ghost predicate HoldingFrame(fr: AudioFrame)
      reads this
    {
      Merged() && heldAudio == [fr] && heldCmd == [] && stashAudio.None? && |handled| < fr.number
    }

    // Handles every command posted before fr.
    method DrainCommandsBefore(fr: AudioFrame)
      requires HoldingFrame(fr)
      modifies this
      ensures HoldingFrame(fr) && (cancelled || fr.number == |handled| + 1)
      ensures old(handled) <= handled && (old(cancelled) ==> cancelled)
    {
      hide CommandsAfter;
      hide FramesAfter;
      while !cancelled
        invariant HoldingFrame(fr) && old(handled) <= handled && (old(cancelled) ==> cancelled)
        decreases fr.number - |handled|
      {
        World();
        var found := FillCommandStash();
        if !found || stashCmd.value.number > fr.number {
          FrameIsNext(fr);
          return;
        }
        CommandIsNext(stashCmd.value);
        var env := TakeStashedCommand();
        HandleCommand(env);
        World();
      }
    }

    method RunCommand(env: CmdEnvelope)
      requires Holding(env)
      modifies this
      ensures Increasing(handled) && (cancelled || AtHead())
      ensures old(handled) <= handled && (old(cancelled) ==> cancelled)
    {
      DrainAudioBefore(env);
      HandleCommand(env);
    }

    method RunAudio(fr: AudioFrame)
      requires HoldingFrame(fr)
      modifies this
      ensures Increasing(handled) && (cancelled || AtHead())
      ensures old(handled) <= handled && (old(cancelled) ==> cancelled)
    {
      DrainCommandsBefore(fr);
      HandleAudio(fr);
    }

    // The stashed command is run.
    method RunStashedCommand()
      requires Merged() && stashCmd.Some? && heldCmd == [] && heldAudio == []
      modifies this
      ensures Increasing(handled) && (cancelled || AtHead())
      ensures old(handled) <= handled
    {
      hide CommandsAfter;
      hide FramesAfter;
      var env := TakeStashedCommand();
      FirstCommand(env);
      RunCommand(env);
    }

    method RunStashedAudio()
      requires Merged() && stashAudio.Some? && heldCmd == [] && heldAudio == []
      modifies this
      ensures Increasing(handled) && (cancelled || AtHead())
      ensures old(handled) <= handled
    {
      hide CommandsAfter;
      hide FramesAfter;
      var fr := TakeStashedAudio();
      FirstFrame(fr);
      RunAudio(fr);
    }

    // One turn of the actor's loop, as far as arrival order goes. What the
    // queues give goes through the stash, which is empty then.
    method Turn()
      requires AtHead()
      modifies this
      ensures Increasing(handled) && (cancelled || AtHead())
      ensures old(handled) <= handled
    {
      hide CommandsAfter;
      hide FramesAfter;
      hide Increasing;
      PrefixIncreases(handled);
      World();
      var pickCommand: bool := *;
      if stashCmd.Some? && (stashAudio.None? || stashCmd.value.number < stashAudio.value.number) {
        RunStashedCommand();
      } else if stashAudio.Some? {
        RunStashedAudio();
      } else if pickCommand && cmds != [] {
        var found := FillCommandStash();
        RunStashedCommand();
      } else if audioIn != [] {
        var found := FillAudioStash();
        RunStashedAudio();
      }
    }

    // Any number of turns. At every loop head of a live session what has been
    // handled is exactly the entries 1..k, in order, and at most one stash is
    // occupied; the numbers handled stay increasing even when a cancellation
    // cuts a drain short.
    method Loop(turns: nat)
      requires AtHead()
      modifies this
      ensures Increasing(handled)
      ensures cancelled || AtHead()
      ensures old(handled) <= handled
    {
      for i := 0 to turns
        invariant Increasing(handled) && (cancelled || AtHead())
        invariant old(handled) <= handled
      {
        if cancelled { return; }
        Turn();
      }
    }
  }
}
