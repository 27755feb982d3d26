// Dropping idle audio is unobservable: detector and trimmed buffer together
// report and commit what an unbounded buffer that never trims would
// (internal/session/buffer.go:51-124, internal/session/session.go:735-792).
module IdleTrim {
  import opened Audio
  import opened Vad
  import opened InputBuffer

  // The audio path between two changes of turn_detection.
  datatype Path = Path(buffer: Buffer, detector: Detector)

  datatype Input = Feed(pcm: Bytes) | CommitAudio | ClearAudio

  // What the session does with one detector event.
  function Mark(b: Buffer, ev: VadEvent, prefixMs: nat, silenceMs: int): Buffer {
    match ev
    case SpeechStart(offset) => MarkSpeechStart(b, offset, prefixMs)
    case SpeechEnd(offset) => MarkSpeechEnd(b, offset, silenceMs)
  }

  function MarkAll(b: Buffer, evs: seq<VadEvent>, prefixMs: nat, silenceMs: int): Buffer
    decreases |evs|
  {
    if evs == [] then b else MarkAll(Mark(b, evs[0], prefixMs, silenceMs), evs[1..], prefixMs, silenceMs)
  }

  function Reset(p: Path, buffer: Buffer): Path {
    Path(buffer, Vad.Reset(p.detector))
  }

  // One input; idle audio is dropped after each append when trims is set, and
  // nothing is ever dropped or refused when it is not.
  function Step(p: Path, input: Input, prefixMs: nat, trims: bool): Path {
    match input
    case Feed(pcm) =>
      var (d, evs) := Process(p.detector, pcm);
      var b := if trims then Append(p.buffer, pcm) else p.buffer.(pcm := p.buffer.pcm + pcm);
      var marked := MarkAll(b, evs, prefixMs, p.detector.silenceMs);
      Path(if trims then TrimIdle(marked, prefixMs + FRAME_MS) else marked, d)
    case CommitAudio => if p.buffer.pcm == [] then p else Reset(p, Clear(p.buffer))
    case ClearAudio => Reset(p, Clear(p.buffer))
  }

  // Everything a client can see of an input: the marks after an append, and
  // the outcome of a commit of a marked segment.
  datatype Seen =
    | Marks(startMs: int, endMs: int)
    | Outcome(commit: Commit)
    | IdleCommit(empty: bool)
    | Cleared(totalMs: int)

  ghost function Observe(p: Path, input: Input, prefixMs: nat, trims: bool): Seen
    requires PathInv(p, prefixMs)
  {
    match input
    case Feed(_) => var b := Step(p, input, prefixMs, trims).buffer; Marks(b.segStartMs, b.segEndMs)
    case CommitAudio =>
      CommitIsExact(p.buffer);
      if p.buffer.segStartMs >= 0 then Outcome(CommitResult(p.buffer)) else IdleCommit(p.buffer.pcm == [])
    case ClearAudio => Cleared(TotalMs(p.buffer))
  }

  // Bytes the detector was fed since its last reset.
  function Fed(d: Detector): nat {
    48 * d.elapsedMs + |d.pending|
  }

  ghost predicate PathInv(p: Path, prefixMs: nat) {
    && BufferInv(p.buffer)
    && DetectorInv(p.detector)
    && p.detector.silenceMs >= 0
    && |p.detector.pending| < FRAME_BYTES
    && 48 * (p.buffer.headMs - p.buffer.baseMs) + |p.buffer.pcm| == Fed(p.detector)
    && (p.detector.speaking ==> p.buffer.segStartMs >= 0)
    && (p.buffer.headMs == p.buffer.baseMs || p.buffer.headMs + prefixMs + FRAME_MS <= TotalMs(p.buffer))
  }

  // t holds the tail of what u holds, and agrees with it on everything else.
  ghost predicate SameBuffer(t: Buffer, u: Buffer) {
    && t.baseMs == u.baseMs == u.headMs <= t.headMs
    && t.segStartMs == u.segStartMs
    && t.segEndMs == u.segEndMs
    && 48 * (t.headMs - u.headMs) <= |u.pcm|
    && t.pcm == u.pcm[48 * (t.headMs - u.headMs)..]
  }

  ghost predicate Agree(t: Path, u: Path) {
    t.detector == u.detector && SameBuffer(t.buffer, u.buffer)
  }

  lemma AgreeOnTotal(t: Buffer, u: Buffer)
    requires SameBuffer(t, u)
    ensures TotalMs(t) == TotalMs(u)
  {
  }

  lemma AppendAgrees(t: Buffer, u: Buffer, pcm: Bytes)
    requires SameBuffer(t, u) && !Overflows(t, pcm)
    ensures SameBuffer(Append(t, pcm), u.(pcm := u.pcm + pcm))
  {
    var k := 48 * (t.headMs - u.headMs);
    assert u.pcm[k..] + pcm == (u.pcm + pcm)[k..];
  }

  lemma TrimAgrees(t: Buffer, u: Buffer, keepMs: nat)
    requires SameBuffer(t, u)
    ensures SameBuffer(TrimIdle(t, keepMs), u)
  {
    var drop := BytesToMs(|t.pcm|) - keepMs;
    if t.segStartMs < 0 && drop > 0 {
      var k := 48 * (t.headMs - u.headMs);
      assert 48 * drop <= |t.pcm|;
      assert u.pcm[k..][48 * drop..] == u.pcm[k + 48 * drop..];
    }
  }

  // The roll-back of a speech start never reaches dropped audio.
  lemma MarkAgrees(t: Buffer, u: Buffer, ev: VadEvent, prefixMs: nat, silenceMs: int)
    requires SameBuffer(t, u)
    requires ev.SpeechStart? && t.headMs != t.baseMs ==> t.headMs <= t.baseMs + ev.offsetMs - prefixMs
    ensures SameBuffer(Mark(t, ev, prefixMs, silenceMs), Mark(u, ev, prefixMs, silenceMs))
  {
    AgreeOnTotal(t, u);
  }

  // ---- what one append brings ------------------------------------------------------------------------

  // Starts and ends take turns, from speaking to speaking'.
  predicate Alternates(evs: seq<VadEvent>, speaking: bool, speaking': bool)
    decreases |evs|
  {
    if evs == [] then speaking == speaking'
    else evs[0].SpeechStart? == !speaking && Alternates(evs[1..], !speaking, speaking')
  }

  // Starts lie after from, and what is reported has been heard by until.
  predicate Within(ev: VadEvent, from: nat, until: nat, silenceMs: int) {
    match ev
    case SpeechStart(offset) => from <= offset && offset + FRAME_MS <= until
    case SpeechEnd(offset) => offset + silenceMs <= until
  }

  ghost predicate AllWithin(evs: seq<VadEvent>, from: nat, until: nat, silenceMs: int) {
    forall i :: 0 <= i < |evs| ==> Within(evs[i], from, until, silenceMs)
  }

  // What the detector is like after a drain.
  ghost predicate Heard(d: Detector, d': Detector, evs: seq<VadEvent>) {
    && DetectorInv(d') && d'.silenceMs == d.silenceMs
    && d.elapsedMs <= d'.elapsedMs
    && Alternates(evs, d.speaking, d'.speaking)
    && AllWithin(evs, d.elapsedMs, d'.elapsedMs, d.silenceMs)
  }

  lemma {:induction false} DrainHears(d: Detector)
    requires DetectorInv(d) && d.silenceMs >= 0
    ensures Heard(d, Drain(d).0, Drain(d).1)
    decreases |d.pending|
  {
    if |d.pending| >= FRAME_BYTES {
      FrameHears(d);
      var (d1, e1) := NextFrame(d);
      DrainHears(d1);
      var (d2, e2) := Drain(d1);
      if e1 == [] {
        assert e1 + e2 == e2;
      } else {
        assert e1 == [e1[0]] && ([e1[0]] + e2)[1..] == e2;
      }
    }
  }

  lemma FrameHears(d: Detector)
    requires DetectorInv(d) && |d.pending| >= FRAME_BYTES
    ensures var (d', evs) := NextFrame(d);
            Heard(d, d', evs) && |evs| <= 1 && d'.elapsedMs == d.elapsedMs + FRAME_MS
  {
    var (d', evs) := NextFrame(d);
    if evs != [] { assert evs[1..] == []; }
  }

  // The events of one append, and the detector's clock after it.
  lemma EventFacts(d: Detector, pcm: Bytes)
    requires DetectorInv(d) && |d.pending| < FRAME_BYTES && d.silenceMs >= 0
    ensures var (d', evs) := Process(d, pcm);
            && Heard(d, d', evs)
            && |d'.pending| < FRAME_BYTES && Fed(d') == Fed(d) + |pcm|
  {
    hide Drain;
    var d0 := d.(pending := d.pending + pcm);
    DrainHears(d0);
    DrainLeavesPartialFrame(d0);
  }

  // An append of at most one frame reports at most one event.
  lemma OneFrame(d: Detector, pcm: Bytes)
    requires |d.pending| < FRAME_BYTES && |pcm| <= FRAME_BYTES
    ensures |Process(d, pcm).1| <= 1
  {
    var d0 := d.(pending := d.pending + pcm);
    if |d0.pending| >= FRAME_BYTES {
      var d1 := NextFrame(d0).0;
      FrameShortens(d0);
      assert Drain(d1) == (d1, []);
      assert Drain(d0) == (d1, NextFrame(d0).1 + []);
    }
  }

  // ---- the marks of one append -------------------------------------------------------------------------

  lemma {:induction false} MarkAllKeeps(b: Buffer, evs: seq<VadEvent>, prefixMs: nat, silenceMs: nat,
                                        from: nat, until: nat, speaking: bool, speaking': bool)
    requires BufferInv(b) && (speaking ==> b.segStartMs >= 0)
    requires Alternates(evs, speaking, speaking') && AllWithin(evs, from, until, silenceMs)
             && b.baseMs + until <= TotalMs(b)
    ensures var m := MarkAll(b, evs, prefixMs, silenceMs);
            && m == b.(segStartMs := m.segStartMs, segEndMs := m.segEndMs)
            && BufferInv(m) && (speaking' ==> m.segStartMs >= 0)
    decreases |evs|
  {
    if evs != [] {
      assert Within(evs[0], from, until, silenceMs);
      var b1 := Mark(b, evs[0], prefixMs, silenceMs);
      assert b1 == b.(segStartMs := b1.segStartMs, segEndMs := b1.segEndMs);
      AllWithinRest(evs, from, until, silenceMs);
      MarkAllKeeps(b1, evs[1..], prefixMs, silenceMs, from, until, !speaking, speaking');
    }
  }

  lemma AllWithinRest(evs: seq<VadEvent>, from: nat, until: nat, silenceMs: int)
    requires evs != [] && AllWithin(evs, from, until, silenceMs)
    ensures AllWithin(evs[1..], from, until, silenceMs)
  {
  }

  lemma {:induction false} MarkAllAgrees(t: Buffer, u: Buffer, evs: seq<VadEvent>, prefixMs: nat, silenceMs: int,
                                         from: nat, until: nat)
    requires SameBuffer(t, u) && AllWithin(evs, from, until, silenceMs)
    requires t.headMs != t.baseMs ==> t.headMs <= t.baseMs + from - prefixMs
    ensures SameBuffer(MarkAll(t, evs, prefixMs, silenceMs), MarkAll(u, evs, prefixMs, silenceMs))
    decreases |evs|
  {
    hide SameBuffer;
    if evs != [] {
      assert Within(evs[0], from, until, silenceMs);
      MarkAgrees(t, u, evs[0], prefixMs, silenceMs);
      AllWithinRest(evs, from, until, silenceMs);
      var t1 := Mark(t, evs[0], prefixMs, silenceMs);
      assert t1.headMs == t.headMs && t1.baseMs == t.baseMs;
      MarkAllAgrees(t1, Mark(u, evs[0], prefixMs, silenceMs), evs[1..], prefixMs, silenceMs, from, until);
    }
  }

  lemma FeedKeeps(p: Path, pcm: Bytes, prefixMs: nat, trims: bool)
    requires PathInv(p, prefixMs)
    requires trims ==> !Overflows(p.buffer, pcm)
    ensures PathInv(Step(p, Feed(pcm), prefixMs, trims), prefixMs)
  {
    hide Process;
    hide MarkAll;
    hide Alternates;
    EventFacts(p.detector, pcm);
    var (d, evs) := Process(p.detector, pcm);
    var b := p.buffer.(pcm := p.buffer.pcm + pcm);
    MarkAllKeeps(b, evs, prefixMs, p.detector.silenceMs, p.detector.elapsedMs, d.elapsedMs, p.detector.speaking,
                 d.speaking);
  }

  // An append the session accepts.
  predicate Takes(p: Path, input: Input, trims: bool) {
    input.Feed? && trims ==> !Overflows(p.buffer, input.pcm)
  }

  lemma StepKeeps(p: Path, input: Input, prefixMs: nat, trims: bool)
    requires PathInv(p, prefixMs)
    requires Takes(p, input, trims)
    ensures PathInv(Step(p, input, prefixMs, trims), prefixMs)
  {
    if input.Feed? {
      FeedKeeps(p, input.pcm, prefixMs, trims);
    }
  }

  lemma FeedAgrees(t: Path, u: Path, pcm: Bytes, prefixMs: nat)
    requires PathInv(t, prefixMs) && PathInv(u, prefixMs) && Agree(t, u)
    requires !Overflows(t.buffer, pcm)
    ensures Agree(Step(t, Feed(pcm), prefixMs, true), Step(u, Feed(pcm), prefixMs, false))
  {
    hide Process;
    hide Mark;
    hide TrimIdle;
    hide Heard;
    EventFacts(t.detector, pcm);
    var silence := t.detector.silenceMs;
    var (d, evs) := Process(t.detector, pcm);
    var bt := Append(t.buffer, pcm);
    var bu := u.buffer.(pcm := u.buffer.pcm + pcm);
    AppendAgrees(t.buffer, u.buffer, pcm);
    HeardWithin(t.detector, d, evs);
    MarkAllAgrees(bt, bu, evs, prefixMs, silence, t.detector.elapsedMs, d.elapsedMs);
    TrimAgrees(MarkAll(bt, evs, prefixMs, silence), MarkAll(bu, evs, prefixMs, silence), prefixMs + FRAME_MS);
  }

  lemma HeardWithin(d: Detector, d': Detector, evs: seq<VadEvent>)
    requires Heard(d, d', evs)
    ensures AllWithin(evs, d.elapsedMs, d'.elapsedMs, d.silenceMs)
  {
  }

  lemma CommitAgrees(t: Buffer, u: Buffer)
    requires BufferInv(t) && BufferInv(u) && SameBuffer(t, u) && t.segStartMs >= 0 && t.pcm != []
    ensures 0 <= CommitFrom(t) <= CommitTo(t) && 0 <= CommitFrom(u) <= CommitTo(u)
    ensures CommitResult(t) == CommitResult(u)
  {
    CommitIsExact(t);
    CommitIsExact(u);
    AgreeOnTotal(t, u);
    var shift := 48 * (t.headMs - u.headMs);
    var from, to := CommitFrom(t), CommitTo(t);
    assert CommitFrom(u) == from + shift && CommitTo(u) == to + shift;
    assert u.pcm[shift..][from..to] == u.pcm[from + shift..to + shift];
  }

  lemma StepAgrees(t: Path, u: Path, input: Input, prefixMs: nat)
    requires PathInv(t, prefixMs) && PathInv(u, prefixMs) && Agree(t, u)
    requires Takes(t, input, true)
    ensures Takes(u, input, false)
    ensures Agree(Step(t, input, prefixMs, true), Step(u, input, prefixMs, false))
    ensures Observe(t, input, prefixMs, true) == Observe(u, input, prefixMs, false)
  {
    hide Process;
    hide MarkAll;
    hide TrimIdle;
    if input.Feed? {
      FeedAgrees(t, u, input.pcm, prefixMs);
    } else {
      AgreeOnTotal(t.buffer, u.buffer);
      EmptyAgrees(t, u, prefixMs);
      DropAgrees(t, u);
      if t.buffer.segStartMs >= 0 && t.buffer.pcm != [] { CommitAgrees(t.buffer, u.buffer); }
    }
  }

  // Idle audio is held in both or in neither.
  lemma EmptyAgrees(t: Path, u: Path, prefixMs: nat)
    requires PathInv(t, prefixMs) && PathInv(u, prefixMs) && Agree(t, u)
    ensures t.buffer.pcm == [] <==> u.buffer.pcm == []
  {
  }

  lemma DropAgrees(t: Path, u: Path)
    requires Agree(t, u)
    ensures Agree(Reset(t, Clear(t.buffer)), Reset(u, Clear(u.buffer)))
  {
    AgreeOnTotal(t.buffer, u.buffer);
  }

  // Every input of a run is taken.
  ghost predicate Accepted(p: Path, inputs: seq<Input>, prefixMs: nat, trims: bool)
    decreases |inputs|
  {
    inputs == []
    || (Takes(p, inputs[0], trims) && Accepted(Step(p, inputs[0], prefixMs, trims), inputs[1..], prefixMs, trims))
  }

  // Where a run ends.
  function Final(p: Path, inputs: seq<Input>, prefixMs: nat, trims: bool): Path
    decreases |inputs|
  {
    if inputs == [] then p else Final(Step(p, inputs[0], prefixMs, trims), inputs[1..], prefixMs, trims)
  }

  ghost function Run(p: Path, inputs: seq<Input>, prefixMs: nat, trims: bool): (seen: seq<Seen>)
    requires PathInv(p, prefixMs) && Accepted(p, inputs, prefixMs, trims)
    decreases |inputs|
  {
    if inputs == [] then []
    else
      StepKeeps(p, inputs[0], prefixMs, trims);
      [Observe(p, inputs[0], prefixMs, trims)] + Run(Step(p, inputs[0], prefixMs, trims), inputs[1..], prefixMs, trims)
  }

  // Every run of the trimming session shows the client exactly what the session
  // that never trims shows, and leaves the two in agreement.
  lemma {:induction false} TrimmingIsUnobservable(t: Path, u: Path, inputs: seq<Input>, prefixMs: nat)
    requires PathInv(t, prefixMs) && PathInv(u, prefixMs) && Agree(t, u)
    requires Accepted(t, inputs, prefixMs, true)
    ensures Accepted(u, inputs, prefixMs, false)
    ensures Run(t, inputs, prefixMs, true) == Run(u, inputs, prefixMs, false)
    ensures PathInv(Final(t, inputs, prefixMs, true), prefixMs) && PathInv(Final(u, inputs, prefixMs, false), prefixMs)
    ensures Agree(Final(t, inputs, prefixMs, true), Final(u, inputs, prefixMs, false))
    decreases |inputs|
  {
    hide Takes;
    hide Step;
    hide PathInv;
    hide Agree;
    hide Observe;
    if inputs != [] {
      StepAgrees(t, u, inputs[0], prefixMs);
      StepKeeps(t, inputs[0], prefixMs, true);
      StepKeeps(u, inputs[0], prefixMs, false);
      TrimmingIsUnobservable(Step(t, inputs[0], prefixMs, true), Step(u, inputs[0], prefixMs, false),
                             inputs[1..], prefixMs);
    }
  }

  // While nothing is marked, less than the prefix, a frame and a millisecond is
  // held.
  ghost predicate IdleIsBounded(p: Path, prefixMs: nat) {
    p.buffer.segStartMs < 0 ==> |p.buffer.pcm| < MsToBytes(prefixMs + FRAME_MS + 1)
  }

  lemma StepBounds(p: Path, input: Input, prefixMs: nat)
    requires IdleIsBounded(p, prefixMs)
    ensures IdleIsBounded(Step(p, input, prefixMs, true), prefixMs)
  {
    hide Process;
    hide MarkAll;
  }

  // However long the silence lasts, the audio held while nothing is marked stays
  // bounded.
  lemma {:induction false} IdleAudioIsBounded(p: Path, inputs: seq<Input>, prefixMs: nat)
    requires IdleIsBounded(p, prefixMs)
    ensures IdleIsBounded(Final(p, inputs, prefixMs, true), prefixMs)
    decreases |inputs|
  {
    hide Step;
    hide IdleIsBounded;
    if inputs != [] {
      StepBounds(p, inputs[0], prefixMs);
      IdleAudioIsBounded(Step(p, inputs[0], prefixMs, true), inputs[1..], prefixMs);
    }
  }
}
