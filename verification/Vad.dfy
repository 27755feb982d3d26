// The energy voice-activity detector (internal/vad/vad.go).
module Vad {
  import opened Audio

  datatype VadEvent = SpeechStart(offsetMs: nat) | SpeechEnd(offsetMs: nat)

  datatype Detector = Detector(
    enterPower: real,
    exitPower: real,
    silenceMs: int,
    pending: Bytes,
    elapsedMs: nat,
    speaking: bool,
    lastVoiced: nat)

  function NewDetector(threshold: real, silenceMs: int): Detector {
    var enter := threshold * 0.1;
    Detector(Power(enter), Power(enter * 0.6), silenceMs, [], 0, false, 0)
  }

  function Reset(d: Detector): Detector {
    d.(pending := [], elapsedMs := 0, speaking := false, lastVoiced := 0)
  }

  // One 20 ms frame.
  function OnFrame(d: Detector, frame: Bytes): (Detector, seq<VadEvent>)
    requires |frame| == FRAME_BYTES
  {
    var now := d.elapsedMs + FRAME_MS;
    if !d.speaking && LevelAtLeast(frame, d.enterPower) then
      (d.(elapsedMs := now, speaking := true, lastVoiced := now), [SpeechStart(d.elapsedMs)])
    else if d.speaking && LevelAtLeast(frame, d.exitPower) then
      (d.(elapsedMs := now, lastVoiced := now), [])
    else if d.speaking && now - d.lastVoiced >= d.silenceMs then
      (d.(elapsedMs := now, speaking := false), [SpeechEnd(d.lastVoiced)])
    else
      (d.(elapsedMs := now), [])
  }

  // Takes the first whole frame off pending.
  function NextFrame(d: Detector): (Detector, seq<VadEvent>)
    requires |d.pending| >= FRAME_BYTES
  {
    OnFrame(d.(pending := d.pending[FRAME_BYTES..]), d.pending[..FRAME_BYTES])
  }

  lemma FrameShortens(d: Detector)
    requires |d.pending| >= FRAME_BYTES
    ensures NextFrame(d).0.pending == d.pending[FRAME_BYTES..]
  {
  }

  // Every whole frame waiting in pending.
  function Drain(d: Detector): (Detector, seq<VadEvent>)
    decreases |d.pending|
  {
    if |d.pending| < FRAME_BYTES then (d, [])
    else
      var (d1, e1) := NextFrame(d);
      var (d2, e2) := Drain(d1);
      (d2, e1 + e2)
  }

  function Process(d: Detector, pcm: Bytes): (Detector, seq<VadEvent>) {
    Drain(d.(pending := d.pending + pcm))
  }

  // ---- chunking does not matter ----------------------------------------------

  lemma NextFrameExtends(d: Detector, more: Bytes)
    requires |d.pending| >= FRAME_BYTES
    ensures var (d1, e1) := NextFrame(d);
            NextFrame(d.(pending := d.pending + more)) == (d1.(pending := d1.pending + more), e1)
  {
    assert (d.pending + more)[..FRAME_BYTES] == d.pending[..FRAME_BYTES];
    assert (d.pending + more)[FRAME_BYTES..] == d.pending[FRAME_BYTES..] + more;
  }

  lemma {:induction false} DrainExtends(d: Detector, more: Bytes)
    ensures Drain(d.(pending := d.pending + more)).0
            == Drain(Drain(d).0.(pending := Drain(d).0.pending + more)).0
    ensures Drain(d.(pending := d.pending + more)).1
            == Drain(d).1 + Drain(Drain(d).0.(pending := Drain(d).0.pending + more)).1
    decreases |d.pending|
  {
    if |d.pending| >= FRAME_BYTES {
      NextFrameExtends(d, more);
      DrainExtends(NextFrame(d).0, more);
    }
  }

  // However a stream is cut in two, the detector ends in the same state and
  // reports the same events.
  lemma ChunkingIsUnobservable(d: Detector, a: Bytes, b: Bytes)
    ensures var (d1, e1) := Process(d, a);
            var (d2, e2) := Process(d1, b);
            Process(d, a + b) == (d2, e1 + e2)
  {
    DrainExtends(d.(pending := d.pending + a), b);
    assert d.pending + a + b == d.pending + (a + b);
  }

  // Any number of Process calls, one after the other.
  function ProcessAll(d: Detector, chunks: seq<Bytes>): (Detector, seq<VadEvent>)
    decreases |chunks|
  {
    if chunks == [] then (d, [])
    else
      var (d1, e1) := Process(d, chunks[0]);
      var (d2, e2) := ProcessAll(d1, chunks[1..]);
      (d2, e1 + e2)
  }

  function Concat(chunks: seq<Bytes>): Bytes {
    if chunks == [] then [] else chunks[0] + Concat(chunks[1..])
  }

  lemma {:induction false} AnyChunking(d: Detector, chunks: seq<Bytes>)
    requires |d.pending| < FRAME_BYTES
    ensures ProcessAll(d, chunks) == Process(d, Concat(chunks))
    decreases |chunks|
  {
    if chunks == [] {
      assert d.pending + [] == d.pending;
    } else {
      var (d1, e1) := Process(d, chunks[0]);
      DrainLeavesPartialFrame(d.(pending := d.pending + chunks[0]));
      AnyChunking(d1, chunks[1..]);
      ChunkingIsUnobservable(d, chunks[0], Concat(chunks[1..]));
    }
  }

  lemma {:induction false} DrainLeavesPartialFrame(d: Detector)
    ensures |Drain(d).0.pending| < FRAME_BYTES
    ensures FRAME_BYTES * (Drain(d).0.elapsedMs - d.elapsedMs) + 20 * |Drain(d).0.pending| == 20 * |d.pending|
    ensures Drain(d).0.enterPower == d.enterPower && Drain(d).0.exitPower == d.exitPower
            && Drain(d).0.silenceMs == d.silenceMs
    decreases |d.pending|
  {
    if |d.pending| >= FRAME_BYTES {
      DrainLeavesPartialFrame(NextFrame(d).0);
    }
  }

  // ---- pacing ----------------------------------------------------------------

  // An event together with the amount of audio consumed when it was reported.
  datatype Report = Report(event: VadEvent, atMs: nat)

  function Reports(d: Detector): seq<Report>
    decreases |d.pending|
  {
    if |d.pending| < FRAME_BYTES then []
    else
      var (d1, e1) := NextFrame(d);
      (if e1 == [] then [] else [Report(e1[0], d1.elapsedMs)]) + Reports(d1)
  }

  function Events(rs: seq<Report>): seq<VadEvent> {
    if rs == [] then [] else [rs[0].event] + Events(rs[1..])
  }

  lemma EventsOfCons(r: Report, rs: seq<Report>)
    ensures Events([r] + rs) == [r.event] + Events(rs)
  {
    assert ([r] + rs)[1..] == rs;
  }

  lemma {:induction false} ReportsAreTheEvents(d: Detector)
    ensures Events(Reports(d)) == Drain(d).1
    decreases |d.pending|
  {
    if |d.pending| >= FRAME_BYTES {
      var (d1, e1) := NextFrame(d);
      assert |e1| <= 1;
      ReportsAreTheEvents(d1);
      if e1 == [] {
        assert Reports(d) == Reports(d1);
      } else {
        EventsOfCons(Report(e1[0], d1.elapsedMs), Reports(d1));
        assert e1 == [e1[0]];
      }
    }
  }

  // The documented shape of a detector's whole output: starts and ends
  // alternate, every offset is a frame boundary, a start is reported with its
  // own frame, an end only after silenceMs of audio past its offset, and no
  // start lies before the moment the previous end was reported.
  ghost predicate WellPaced(rs: seq<Report>, silenceMs: int, speaking: bool, notBefore: nat)
    decreases |rs|
  {
    rs == [] ||
    var r := rs[0];
    && r.event.offsetMs % FRAME_MS == 0
    && notBefore <= r.event.offsetMs
    && (match r.event
        case SpeechStart(offset) =>
          && !speaking
          && r.atMs == offset + FRAME_MS
          && WellPaced(rs[1..], silenceMs, true, offset + FRAME_MS)
        case SpeechEnd(offset) =>
          && speaking
          && r.atMs >= offset + silenceMs
          && r.atMs > offset
          && WellPaced(rs[1..], silenceMs, false, r.atMs))
  }

  ghost predicate DetectorInv(d: Detector) {
    && d.elapsedMs % FRAME_MS == 0
    && d.lastVoiced % FRAME_MS == 0
    && d.lastVoiced <= d.elapsedMs
  }

  lemma {:induction false} OutputIsWellPaced(d: Detector, notBefore: nat)
    requires DetectorInv(d)
    requires if d.speaking then notBefore <= d.lastVoiced else notBefore <= d.elapsedMs
    ensures WellPaced(Reports(d), d.silenceMs, d.speaking, notBefore)
    decreases |d.pending|
  {
    if |d.pending| >= FRAME_BYTES {
      var (d1, e1) := NextFrame(d);
      var rs := Reports(d);
      if e1 == [] {
        OutputIsWellPaced(d1, notBefore);
        assert rs == Reports(d1);
      } else {
        assert rs[1..] == Reports(d1);
        OutputIsWellPaced(d1, if d1.speaking then d1.lastVoiced else d1.elapsedMs);
      }
    }
  }

  // ---- what speaking means -----------------------------------------------------

  function FrameAt(stream: Bytes, k: nat): Bytes
    requires FRAME_BYTES * (k + 1) <= |stream|
  {
    stream[FRAME_BYTES * k..FRAME_BYTES * (k + 1)]
  }

  // Frame m was the last one loud enough to hold the speech open.
  ghost predicate LastLoudFrame(d: Detector, stream: Bytes, n: nat, m: nat)
    requires FRAME_BYTES * n <= |stream|
  {
    && m < n
    && d.lastVoiced == FRAME_MS * (m + 1)
    && (LevelAtLeast(FrameAt(stream, m), d.enterPower) || LevelAtLeast(FrameAt(stream, m), d.exitPower))
    && (forall k :: m < k < n ==> !LevelAtLeast(FrameAt(stream, k), d.exitPower))
    && (m + 1 == n || FRAME_MS * (n - m - 1) < d.silenceMs)
  }

  // d is the detector after the first n frames of stream.
  ghost predicate Tracks(d: Detector, stream: Bytes, n: nat) {
    && FRAME_BYTES * n <= |stream|
    && d.elapsedMs == FRAME_MS * n
    && d.pending == stream[FRAME_BYTES * n..]
    && d.lastVoiced <= d.elapsedMs && d.lastVoiced % FRAME_MS == 0
    && (d.speaking ==> exists m :: LastLoudFrame(d, stream, n, m))
  }

  lemma TrackFrame(d: Detector, stream: Bytes, n: nat)
    requires Tracks(d, stream, n) && |d.pending| >= FRAME_BYTES
    ensures Tracks(NextFrame(d).0, stream, n + 1)
  {
    hide LevelAtLeast;
    var frame := d.pending[..FRAME_BYTES];
    assert frame == FrameAt(stream, n);
    var d1 := OnFrame(d.(pending := d.pending[FRAME_BYTES..]), frame).0;
    assert d1.pending == stream[FRAME_BYTES * (n + 1)..];
    if d1.speaking {
      if d1.lastVoiced == d1.elapsedMs {
        assert LastLoudFrame(d1, stream, n + 1, n);
      } else {
        var m :| LastLoudFrame(d, stream, n, m);
        assert LastLoudFrame(d1, stream, n + 1, m);
      }
    }
  }

  // After any stream, a detector that is speaking holds its speech open for a
  // reason that can be read off the frames: the last loud frame ends at
  // lastVoiced, everything after it is quiet, and less than silenceMs of it.
  lemma {:induction false} SpeakingIsJustified(d: Detector, stream: Bytes, n: nat)
    requires Tracks(d, stream, n)
    ensures Tracks(Drain(d).0, stream, |stream| / FRAME_BYTES)
    decreases |d.pending|
  {
    if |d.pending| >= FRAME_BYTES {
      TrackFrame(d, stream, n);
      SpeakingIsJustified(NextFrame(d).0, stream, n + 1);
    } else {
      assert n == |stream| / FRAME_BYTES;
    }
  }

  // ---- when speech opens and closes ----------------------------------------------

  // No whole frame of stream reaches the level.
  ghost predicate AllBelow(stream: Bytes, power: real) {
    forall k: nat :: FRAME_BYTES * (k + 1) <= |stream| ==> !LevelAtLeast(FrameAt(stream, k), power)
  }

  ghost predicate AllReach(stream: Bytes, power: real) {
    forall k: nat :: FRAME_BYTES * (k + 1) <= |stream| ==> LevelAtLeast(FrameAt(stream, k), power)
  }

  // A report that opens speech names the start of a frame that reaches enter; one
  // that closes it the end of a frame, or of what was heard before.
  ghost predicate Founded(d: Detector, stream: Bytes, ev: VadEvent) {
    match ev
    case SpeechStart(offset) => exists k: nat :: StartsAt(d, stream, offset, k)
    case SpeechEnd(offset) => offset == d.lastVoiced || exists k: nat :: EndsAt(d, stream, offset, k)
  }

  ghost predicate StartsAt(d: Detector, stream: Bytes, offset: nat, k: nat) {
    && FRAME_BYTES * (k + 1) <= |stream| && offset == d.elapsedMs + FRAME_MS * k
    && LevelAtLeast(FrameAt(stream, k), d.enterPower)
  }

  ghost predicate EndsAt(d: Detector, stream: Bytes, offset: nat, k: nat) {
    && FRAME_BYTES * (k + 1) <= |stream| && offset == d.elapsedMs + FRAME_MS * (k + 1)
    && (LevelAtLeast(FrameAt(stream, k), d.enterPower) || LevelAtLeast(FrameAt(stream, k), d.exitPower))
  }

  lemma FrameShifts(stream: Bytes, k: nat)
    requires FRAME_BYTES * (k + 2) <= |stream|
    ensures FrameAt(stream[FRAME_BYTES..], k) == FrameAt(stream, k + 1)
  {
  }

  // What is founded in the rest of a stream is founded in the stream.
  lemma FoundedShifts(d: Detector, d1: Detector, stream: Bytes, ev: VadEvent)
    requires |stream| >= FRAME_BYTES && Founded(d1, stream[FRAME_BYTES..], ev)
    requires d1.elapsedMs == d.elapsedMs + FRAME_MS && d1.enterPower == d.enterPower && d1.exitPower == d.exitPower
    requires d1.lastVoiced == d.lastVoiced || EndsAt(d, stream, d1.lastVoiced, 0)
    ensures Founded(d, stream, ev)
  {
    hide LevelAtLeast;
    var rest := stream[FRAME_BYTES..];
    match ev
    case SpeechStart(offset) =>
      var k: nat :| StartsAt(d1, rest, offset, k);
      FrameShifts(stream, k);
      assert StartsAt(d, stream, offset, k + 1);
    case SpeechEnd(offset) =>
      if offset != d1.lastVoiced {
        var k: nat :| EndsAt(d1, rest, offset, k);
        FrameShifts(stream, k);
        assert EndsAt(d, stream, offset, k + 1);
      } else if d1.lastVoiced != d.lastVoiced {
        assert EndsAt(d, stream, offset, 0);
      }
  }

  lemma FrameIsFounded(d: Detector)
    requires |d.pending| >= FRAME_BYTES
    ensures var (d1, e1) := NextFrame(d);
            && (d1.lastVoiced == d.lastVoiced || EndsAt(d, d.pending, d1.lastVoiced, 0))
            && forall i :: 0 <= i < |e1| ==> Founded(d, d.pending, e1[i])
  {
    hide LevelAtLeast;
    assert d.pending[..FRAME_BYTES] == FrameAt(d.pending, 0);
    var (d1, e1) := NextFrame(d);
    if e1 != [] && e1[0].SpeechStart? { assert StartsAt(d, d.pending, d.elapsedMs, 0); }
  }

  lemma {:induction false} DrainIsFounded(d: Detector)
    ensures forall i :: 0 <= i < |Drain(d).1| ==> Founded(d, d.pending, Drain(d).1[i])
    decreases |d.pending|
  {
    hide NextFrame;
    hide Founded;
    if |d.pending| >= FRAME_BYTES {
      var (d1, e1) := NextFrame(d);
      var e2 := Drain(d1).1;
      FrameIsFounded(d);
      FrameShortens(d);
      FrameSteps(d);
      DrainIsFounded(d1);
      forall i | 0 <= i < |Drain(d).1| ensures Founded(d, d.pending, Drain(d).1[i]) {
        if i < |e1| { assert Drain(d).1[i] == e1[i]; }
        else {
          assert Drain(d).1[i] == e2[i - |e1|];
          FoundedShifts(d, d1, d.pending, e2[i - |e1|]);
        }
      }
    }
  }

  lemma FrameSteps(d: Detector)
    requires |d.pending| >= FRAME_BYTES
    ensures var d1 := NextFrame(d).0;
            d1.elapsedMs == d.elapsedMs + FRAME_MS && d1.enterPower == d.enterPower && d1.exitPower == d.exitPower
            && d1.silenceMs == d.silenceMs
  {
  }

  // Only a frame that reaches the enter level opens speech, wherever and however
  // often it opens; speech closes where a loud frame ended.
  lemma EventsAreFounded(d: Detector, pcm: Bytes)
    ensures var evs := Process(d, pcm).1;
            forall i :: 0 <= i < |evs| ==> Founded(d, d.pending + pcm, evs[i])
  {
    DrainIsFounded(d.(pending := d.pending + pcm));
    forall i | 0 <= i < |Process(d, pcm).1| ensures Founded(d, d.pending + pcm, Process(d, pcm).1[i]) {
      SameFounded(d, d.pending + pcm, Process(d, pcm).1[i]);
    }
  }

  lemma SameFounded(d: Detector, stream: Bytes, ev: VadEvent)
    requires Founded(d.(pending := stream), stream, ev)
    ensures Founded(d, stream, ev)
  {
    hide LevelAtLeast;
    match ev
    case SpeechStart(offset) =>
      var k: nat :| StartsAt(d.(pending := stream), stream, offset, k);
      assert StartsAt(d, stream, offset, k);
    case SpeechEnd(offset) =>
      if offset != d.lastVoiced {
        var k: nat :| EndsAt(d.(pending := stream), stream, offset, k);
        assert EndsAt(d, stream, offset, k);
      }
  }

  lemma BelowRest(stream: Bytes, power: real)
    requires |stream| >= FRAME_BYTES
    ensures AllBelow(stream, power) ==> !LevelAtLeast(stream[..FRAME_BYTES], power)
                                        && AllBelow(stream[FRAME_BYTES..], power)
    ensures AllReach(stream, power) ==> LevelAtLeast(stream[..FRAME_BYTES], power)
                                        && AllReach(stream[FRAME_BYTES..], power)
  {
    hide LevelAtLeast;
    assert stream[..FRAME_BYTES] == FrameAt(stream, 0);
    forall k: nat | FRAME_BYTES * (k + 1) <= |stream[FRAME_BYTES..]|
      ensures FrameAt(stream[FRAME_BYTES..], k) == FrameAt(stream, k + 1)
    {
      FrameShifts(stream, k);
    }
  }

  function WholeFrames(stream: Bytes): nat {
    |stream| / FRAME_BYTES
  }

  // A silent detector stays silent, and says nothing, while no frame reaches enter.
  lemma {:induction false} QuietSaysNothing(d: Detector)
    requires !d.speaking && AllBelow(d.pending, d.enterPower)
    ensures var n := WholeFrames(d.pending);
            Drain(d) == (d.(pending := d.pending[FRAME_BYTES * n..], elapsedMs := d.elapsedMs + FRAME_MS * n), [])
    decreases |d.pending|
  {
    hide LevelAtLeast;
    if |d.pending| >= FRAME_BYTES {
      BelowRest(d.pending, d.enterPower);
      var d1 := NextFrame(d).0;
      QuietSaysNothing(d1);
      FramesRest(d.pending);
      SilentFrame(d);
    } else {
      NoFrames(d);
    }
  }

  // A frame that says nothing is passed over.
  lemma SilentFrame(d: Detector)
    requires |d.pending| >= FRAME_BYTES && NextFrame(d).1 == []
    ensures Drain(d) == Drain(NextFrame(d).0)
  {
    hide NextFrame;
    FrameShortens(d);
    var rest := Drain(NextFrame(d).0).1;
    assert [] + rest == rest;
  }

  lemma NoFrames(d: Detector)
    requires |d.pending| < FRAME_BYTES
    ensures WholeFrames(d.pending) == 0 && d.pending[FRAME_BYTES * 0..] == d.pending && Drain(d) == (d, [])
  {
  }

  lemma FramesRest(stream: Bytes)
    requires |stream| >= FRAME_BYTES
    ensures var rest := stream[FRAME_BYTES..];
            WholeFrames(stream) == WholeFrames(rest) + 1
            && stream[FRAME_BYTES * WholeFrames(stream)..] == rest[FRAME_BYTES * WholeFrames(rest)..]
  {
  }

  // Frames that reach exit hold open speech open.
  lemma {:induction false} LoudHoldsOpen(d: Detector)
    requires d.speaking && AllReach(d.pending, d.exitPower)
    ensures var n := WholeFrames(d.pending);
            var now := d.elapsedMs + FRAME_MS * n;
            Drain(d) == (d.(pending := d.pending[FRAME_BYTES * n..], elapsedMs := now,
                            lastVoiced := if n > 0 then now else d.lastVoiced), [])
    decreases |d.pending|
  {
    hide LevelAtLeast;
    if |d.pending| >= FRAME_BYTES {
      BelowRest(d.pending, d.exitPower);
      var d1 := NextFrame(d).0;
      LoudHoldsOpen(d1);
      FramesRest(d.pending);
      SilentFrame(d);
    } else {
      NoFrames(d);
    }
  }

  // Frames below exit leave it open as long as the silence is not heard out.
  lemma {:induction false} SilenceIsHeardOut(d: Detector)
    requires d.speaking && AllBelow(d.pending, d.exitPower)
    ensures var n := WholeFrames(d.pending);
            var now := d.elapsedMs + FRAME_MS * n;
            now - d.lastVoiced < d.silenceMs ==>
              Drain(d) == (d.(pending := d.pending[FRAME_BYTES * n..], elapsedMs := now), [])
    decreases |d.pending|
  {
    hide LevelAtLeast;
    if |d.pending| >= FRAME_BYTES {
      BelowRest(d.pending, d.exitPower);
      var d1 := NextFrame(d).0;
      FramesRest(d.pending);
      if d.elapsedMs + FRAME_MS - d.lastVoiced < d.silenceMs {
        SilenceIsHeardOut(d1);
        SilentFrame(d);
      }
    } else {
      NoFrames(d);
    }
  }

  // The first frame that reaches enter opens speech, at its own start.
  lemma FirstLoudFrameOpens(d: Detector, quiet: Bytes, frame: Bytes)
    requires d.pending == [] && |quiet| % FRAME_BYTES == 0 && |frame| == FRAME_BYTES
    requires !d.speaking && AllBelow(quiet, d.enterPower) && LevelAtLeast(frame, d.enterPower)
    ensures var start := d.elapsedMs + FRAME_MS * WholeFrames(quiet);
            Process(d, quiet + frame)
              == (d.(elapsedMs := start + FRAME_MS, speaking := true, lastVoiced := start + FRAME_MS),
                  [SpeechStart(start)])
  {
    hide LevelAtLeast;
    QuietSaysNothing(d.(pending := quiet));
    AfterSilence(d, quiet, frame);
  }

  // Open speech is closed by the frame with which the silence behind it has been
  // heard out, and said to have ended where its last loud frame did.
  lemma SilenceHeardOutCloses(d: Detector, quiet: Bytes, frame: Bytes)
    requires d.pending == [] && |quiet| % FRAME_BYTES == 0 && |frame| == FRAME_BYTES
    requires d.speaking && AllBelow(quiet + frame, d.exitPower)
    requires var now := d.elapsedMs + FRAME_MS * WholeFrames(quiet);
             (quiet == [] || now - d.lastVoiced < d.silenceMs) && now + FRAME_MS - d.lastVoiced >= d.silenceMs
    ensures var now := d.elapsedMs + FRAME_MS * WholeFrames(quiet);
            Process(d, quiet + frame)
              == (d.(elapsedMs := now + FRAME_MS, speaking := false), [SpeechEnd(d.lastVoiced)])
  {
    hide LevelAtLeast;
    BelowParts(quiet, frame, d.exitPower);
    if quiet == [] {
      assert [] + frame == frame;
      OneFrame(d, frame);
    } else {
      SilenceIsHeardOut(d.(pending := quiet));
      AfterSilence(d, quiet, frame);
    }
  }

  // quiet passes without an event, then one more frame comes.
  lemma AfterSilence(d: Detector, quiet: Bytes, frame: Bytes)
    requires d.pending == [] && |quiet| % FRAME_BYTES == 0 && |frame| == FRAME_BYTES
    requires var n := WholeFrames(quiet);
             Drain(d.(pending := quiet))
               == (d.(pending := quiet[FRAME_BYTES * n..], elapsedMs := d.elapsedMs + FRAME_MS * n), [])
    ensures var n := WholeFrames(quiet);
            Process(d, quiet + frame) == OnFrame(d.(elapsedMs := d.elapsedMs + FRAME_MS * n), frame)
  {
    hide OnFrame;
    hide Drain;
    var n := WholeFrames(quiet);
    var d1 := d.(elapsedMs := d.elapsedMs + FRAME_MS * n);
    assert [] + quiet == quiet && quiet[FRAME_BYTES * n..] == [];
    ChunkingIsUnobservable(d, quiet, frame);
    OneFrame(d1, frame);
    var events := OnFrame(d1, frame).1;
    assert [] + events == events;
  }

  lemma BelowParts(quiet: Bytes, frame: Bytes, power: real)
    requires AllBelow(quiet + frame, power) && |quiet| % FRAME_BYTES == 0 && |frame| == FRAME_BYTES
    ensures AllBelow(quiet, power) && !LevelAtLeast(frame, power)
  {
    hide LevelAtLeast;
    var n := WholeFrames(quiet);
    assert FrameAt(quiet + frame, n) == frame;
    forall k: nat | FRAME_BYTES * (k + 1) <= |quiet| ensures FrameAt(quiet, k) == FrameAt(quiet + frame, k) {
    }
  }

  lemma OneFrame(d: Detector, frame: Bytes)
    requires d.pending == [] && |frame| == FRAME_BYTES
    ensures Process(d, frame) == OnFrame(d, frame)
  {
    hide LevelAtLeast;
    var d0 := d.(pending := d.pending + frame);
    assert d0.pending[..FRAME_BYTES] == frame && d0.pending[FRAME_BYTES..] == [];
    assert d0.(pending := []) == d;
    var (d1, e1) := NextFrame(d0);
    assert (d1, e1) == OnFrame(d, frame);
    assert Drain(d1) == (d1, []);
    assert e1 + [] == e1;
  }

  // Hysteresis: no frame below enter opens speech, however long it goes on, and no
  // frame at exit or above lets open speech close.
  lemma Hysteresis(d: Detector, pcm: Bytes)
    ensures var (d', evs) := Process(d, pcm);
            && (!d.speaking && AllBelow(d.pending + pcm, d.enterPower) ==> evs == [] && !d'.speaking)
            && (d.speaking && AllReach(d.pending + pcm, d.exitPower) ==> evs == [] && d'.speaking)
  {
    hide AllBelow;
    hide AllReach;
    var d0 := d.(pending := d.pending + pcm);
    if !d.speaking && AllBelow(d.pending + pcm, d.enterPower) { QuietSaysNothing(d0); }
    if d.speaking && AllReach(d.pending + pcm, d.exitPower) { LoudHoldsOpen(d0); }
  }

  // The levels of a new detector, told by constant waves: a tenth of the threshold
  // opens speech, six tenths of that hold it open.
  lemma NewDetectorLevels(threshold: real, silenceMs: int, loud: Bytes, frame: Bytes, x: int)
    requires threshold >= 0.0 && |loud| == |frame| == FRAME_BYTES && Constant(frame, x)
    ensures var d := NewDetector(threshold, silenceMs);
            && Process(d, frame).1 == (if Magnitude(x) >= threshold * 3276.7 then [SpeechStart(0)] else [])
            && (Process(d, loud).1 != [] ==>
                  Process(Process(d, loud).0, frame).0.lastVoiced
                    == (if Magnitude(x) >= threshold * 1966.02 then 2 * FRAME_MS else FRAME_MS))
  {
    hide Power;
    hide LevelAtLeast;
    var d := NewDetector(threshold, silenceMs);
    OneFrame(d, frame);
    ConstantLevel(frame, x, threshold * 0.1);
    ConstantLevel(frame, x, threshold * 0.1 * 0.6);
    OneFrame(d, loud);
    OneFrame(OnFrame(d, loud).0, frame);
  }
}
