// Removing the silence padding of synthesized speech
// (internal/provider/openai/realtime_tts.go:48-57, 156-221).
module SilenceGate {
  import opened Audio

  const LEAD_KEEP: nat := 3
  const GAP_KEEP: nat := 15
  const TAIL_KEEP: nat := 5
  const THRESHOLD: nat := 200

  // frameRMS(f) >= THRESHOLD. The sum of 480 squares is exact in a float64, and
  // so is the comparison.
  predicate Loud(frame: Bytes) {
    SumSquares(frame, |frame| / 2) >= |frame| / 2 * (THRESHOLD * THRESHOLD)
  }

  method IsLoud(frame: Bytes) returns (loud: bool)
    ensures loud == Loud(frame)
  {
    var sum := SumOfSquares(frame);
    loud := sum >= |frame| / 2 * (THRESHOLD * THRESHOLD);
  }

  // ---- which frames are kept ------------------------------------------------------------------------

  // The nearest loud frame before k, or -1.
  function PrevLoud(frames: seq<Bytes>, k: nat): (p: int)
    requires k <= |frames|
    ensures -1 <= p < k
    ensures p >= 0 ==> Loud(frames[p])
    ensures forall i :: p < i < k ==> !Loud(frames[i])
  {
    if k == 0 then -1 else if Loud(frames[k - 1]) then k - 1 else PrevLoud(frames, k - 1)
  }

  // The nearest loud frame from k on, or |frames|.
  function NextLoud(frames: seq<Bytes>, k: nat): (n: nat)
    requires k <= |frames|
    ensures k <= n <= |frames|
    ensures n < |frames| ==> Loud(frames[n])
    ensures forall i :: k <= i < n ==> !Loud(frames[i])
    decreases |frames| - k
  {
    if k == |frames| || Loud(frames[k]) then k else NextLoud(frames, k + 1)
  }

  // Frame k of a segment is forwarded: it is speech, or among the last few
  // silent frames before the first speech, the first few of a pause, or the
  // first few after the last speech. A segment without speech keeps nothing.
  predicate Kept(frames: seq<Bytes>, k: nat)
    requires k < |frames|
  {
    var p := PrevLoud(frames, k);
    var n := NextLoud(frames, k);
    if n == k then true
    else if n == |frames| then p >= 0 && k - p <= TAIL_KEEP
    else if p < 0 then n - k <= LEAD_KEEP
    else k - p <= GAP_KEEP
  }

  // In so many frames of 20 ms: speech is kept, and silence for 60 ms before the first
  // speech, for 300 ms into a pause and for 100 ms after the last speech.
  lemma KeptMeans(frames: seq<Bytes>, k: nat)
    requires k < |frames|
    ensures Loud(frames[k]) ==> Kept(frames, k)
    ensures !Loud(frames[k]) && !LoudWithin(frames, 0, k) ==>
              (Kept(frames, k) <==> LoudWithin(frames, k + 1, k + 4))
    ensures !Loud(frames[k]) && LoudWithin(frames, 0, k) && LoudWithin(frames, k + 1, |frames|) ==>
              (Kept(frames, k) <==> LoudWithin(frames, k - 15, k))
    ensures !Loud(frames[k]) && !LoudWithin(frames, k + 1, |frames|) ==>
              (Kept(frames, k) <==> LoudWithin(frames, k - 5, k))
  {
  }

  // Some frame at from, or behind it before until, is loud.
  ghost predicate LoudWithin(frames: seq<Bytes>, from: int, until: int) {
    exists i :: 0 <= i < |frames| && from <= i < until && Loud(frames[i])
  }

  // A constant wave is loud when its samples reach 200.
  lemma ConstantIsLoud(frame: Bytes, x: int)
    requires |frame| == FRAME_BYTES && Constant(frame, x)
    ensures Loud(frame) <==> x <= -200 || 200 <= x
  {
    ConstantSum(frame, x, FRAME_BYTES / 2);
    if 0 <= x { SquaresGrow(x, 200); } else { SquaresGrow(-x, 200); }
  }

  lemma SquaresGrow(a: nat, b: nat)
    ensures a * a >= b * b <==> a >= b
  {
    if a < b {
      assert a * a <= a * b < b * b;
    }
  }

  // The kept frames among frames[from..until], in order.
  function Selected(frames: seq<Bytes>, from: nat, until: nat): Bytes
    requires from <= until <= |frames|
    decreases until - from
  {
    if from == until then []
    else Selected(frames, from, until - 1) + (if Kept(frames, until - 1) then frames[until - 1] else [])
  }

  // The whole frames of a stream; a sub-frame remainder is no frame.
  function Frames(stream: Bytes): seq<Bytes>
    decreases |stream|
  {
    if |stream| < FRAME_BYTES then [] else [stream[..FRAME_BYTES]] + Frames(stream[FRAME_BYTES..])
  }

  // What one segment sounds like once its padding is removed.
  function Gated(stream: Bytes): Bytes {
    Selected(Frames(stream), 0, |Frames(stream)|)
  }

  // ---- flattening -------------------------------------------------------------------------------------

  function Flat(frames: seq<Bytes>): Bytes {
    if frames == [] then [] else Flat(frames[..|frames| - 1]) + frames[|frames| - 1]
  }

  ghost predicate Whole(frames: seq<Bytes>) {
    forall i :: 0 <= i < |frames| ==> |frames[i]| == FRAME_BYTES
  }

  lemma {:induction false} FlatLength(frames: seq<Bytes>)
    requires Whole(frames)
    ensures |Flat(frames)| == FRAME_BYTES * |frames|
  {
    if frames != [] {
      FlatLength(frames[..|frames| - 1]);
    }
  }

  lemma FlatSnoc(frames: seq<Bytes>, f: Bytes)
    ensures Flat(frames + [f]) == Flat(frames) + f
  {
    assert (frames + [f])[..|frames|] == frames;
  }

  lemma {:induction false} FlatAppend(a: seq<Bytes>, b: seq<Bytes>)
    ensures Flat(a + b) == Flat(a) + Flat(b)
    decreases |b|
  {
    hide Flat;
    if b == [] {
      assert a + b == a;
      NothingIsFlat();
    } else {
      var front, last := b[..|b| - 1], b[|b| - 1];
      FlatAppend(a, front);
      assert a + b == a + front + [last] && b == front + [last];
      FlatSnoc(a + front, last);
      FlatSnoc(front, last);
      Regroup(Flat(a), Flat(front), last);
    }
  }

  lemma Regroup(a: Bytes, b: Bytes, c: Bytes)
    ensures a + b + c == a + (b + c)
  {
  }

  // Cutting frames off the front cuts their bytes off the front.
  lemma FlatDrop(frames: seq<Bytes>, n: nat)
    requires Whole(frames) && n <= |frames|
    ensures FRAME_BYTES * n <= |Flat(frames)|
    ensures Flat(frames)[..FRAME_BYTES * n] == Flat(frames[..n])
    ensures Flat(frames)[FRAME_BYTES * n..] == Flat(frames[n..])
  {
    FlatLength(frames[..n]);
    FlatAppend(frames[..n], frames[n..]);
    assert frames == frames[..n] + frames[n..];
  }

  lemma {:induction false} FramesAppend(stream: Bytes, more: Bytes, frames: seq<Bytes>, part: Bytes)
    requires stream == Flat(frames) + part && Whole(frames)
    ensures Frames(stream + more) == frames + Frames(part + more)
    decreases |frames|
  {
    hide Flat;
    if frames == [] {
      NothingIsFlat();
      assert stream + more == part + more;
    } else {
      var rest := Flat(frames[1..]) + part;
      FlatCons(frames);
      assert stream == frames[0] + rest;
      FramesCons(frames[0], rest + more);
      assert stream + more == frames[0] + (rest + more);
      FramesAppend(rest, more, frames[1..], part);
      assert frames == [frames[0]] + frames[1..];
    }
  }

  lemma FlatCons(frames: seq<Bytes>)
    requires frames != []
    ensures Flat(frames) == frames[0] + Flat(frames[1..])
  {
    assert frames == [frames[0]] + frames[1..];
    FlatAppend([frames[0]], frames[1..]);
    FlatSnoc([], frames[0]);
    assert [] + [frames[0]] == [frames[0]];
  }

  lemma FramesCons(frame: Bytes, rest: Bytes)
    requires |frame| == FRAME_BYTES
    ensures Frames(frame + rest) == [frame] + Frames(rest)
  {
    assert (frame + rest)[..FRAME_BYTES] == frame && (frame + rest)[FRAME_BYTES..] == rest;
  }

  // ---- one more frame -----------------------------------------------------------------------------------

  // What is decided about a frame before the last speech stays decided.
  lemma {:induction false} PrevStays(frames: seq<Bytes>, f: Bytes, k: nat)
    requires k <= |frames|
    ensures PrevLoud(frames + [f], k) == PrevLoud(frames, k)
  {
    if k > 0 {
      PrevStays(frames, f, k - 1);
    }
  }

  lemma {:induction false} NextStays(frames: seq<Bytes>, f: Bytes, k: nat)
    requires k <= |frames|
    ensures NextLoud(frames + [f], k)
         == if NextLoud(frames, k) < |frames| then NextLoud(frames, k) else if Loud(f) then |frames| else |frames| + 1
    decreases |frames| - k
  {
    if k < |frames| {
      NextStays(frames, f, k + 1);
    } else if !Loud(f) {
      assert NextLoud(frames + [f], |frames| + 1) == |frames| + 1;
    }
  }

  lemma {:induction false} SelectedStays(frames: seq<Bytes>, f: Bytes, until: nat)
    requires until <= PrevLoud(frames, |frames|) + 1
    ensures until <= |frames| && Selected(frames + [f], 0, until) == Selected(frames, 0, until)
  {
    hide Kept;
    hide Loud;
    if until > 0 {
      SelectedStays(frames, f, until - 1);
      KeptStays(frames, f, until - 1);
    }
  }

  lemma KeptStays(frames: seq<Bytes>, f: Bytes, k: nat)
    requires k <= PrevLoud(frames, |frames|)
    ensures k < |frames| && Kept(frames + [f], k) == Kept(frames, k)
  {
    hide Loud;
    PrevStays(frames, f, k);
    NextStays(frames, f, k);
  }

  // A run in which every frame is kept, or none.
  lemma {:induction false} SelectedRun(frames: seq<Bytes>, from: nat, until: nat)
    requires from <= until <= |frames| && forall k :: from <= k < until ==> Kept(frames, k)
    ensures Selected(frames, 0, until) == Selected(frames, 0, from) + Flat(frames[from..until])
    decreases until - from
  {
    hide Kept;
    hide Loud;
    if from < until {
      SelectedRun(frames, from, until - 1);
      assert frames[from..until] == frames[from..until - 1] + [frames[until - 1]];
      FlatSnoc(frames[from..until - 1], frames[until - 1]);
    }
  }

  lemma {:induction false} SelectedNone(frames: seq<Bytes>, from: nat, until: nat)
    requires from <= until <= |frames| && forall k :: from <= k < until ==> !Kept(frames, k)
    ensures Selected(frames, 0, until) == Selected(frames, 0, from)
    decreases until - from
  {
    hide Kept;
    hide Loud;
    if from < until {
      SelectedNone(frames, from, until - 1);
    }
  }

  function Min(a: nat, b: nat): nat {
    if a < b then a else b
  }

  // The silent frames waiting for the next speech: the most recent of the lead,
  // the first of a pause.
  function Waiting(frames: seq<Bytes>): seq<Bytes> {
    var last := PrevLoud(frames, |frames|);
    if last < 0 then frames[|frames| - Min(LEAD_KEEP, |frames|)..]
    else frames[last + 1..last + 1 + Min(GAP_KEEP, |frames| - last - 1)]
  }

  // Everything up to and including the last speech.
  function Forwarded(frames: seq<Bytes>): Bytes {
    Selected(frames, 0, PrevLoud(frames, |frames|) + 1)
  }

  lemma PrevOfSnoc(frames: seq<Bytes>, f: Bytes)
    ensures PrevLoud(frames + [f], |frames| + 1) == if Loud(f) then |frames| else PrevLoud(frames, |frames|)
  {
    PrevStays(frames, f, |frames|);
  }

  // The stretch of silence that a speech frame right after it lets through.
  function WaitFrom(frames: seq<Bytes>): nat {
    var last := PrevLoud(frames, |frames|);
    if last < 0 then |frames| - Min(LEAD_KEEP, |frames|) else last + 1
  }

  function WaitUntil(frames: seq<Bytes>): nat {
    var last := PrevLoud(frames, |frames|);
    if last < 0 then |frames| else last + 1 + Min(GAP_KEEP, |frames| - last - 1)
  }

  // Of the frames from last to n, those of one stretch are kept.
  ghost predicate KeptStretch(frames: seq<Bytes>, n: nat, last: int, from: nat, until: nat)
    requires n <= |frames|
  {
    last < from <= until <= n && forall k: nat :: last < k < n ==> Kept(frames, k) == (from <= k < until)
  }

  lemma StretchSelects(frames: seq<Bytes>, n: nat, last: int, from: nat, until: nat)
    requires -1 <= last && n <= |frames| && KeptStretch(frames, n, last, from, until)
    ensures Selected(frames, 0, n) == Selected(frames, 0, last + 1) + Flat(frames[from..until])
  {
    hide Kept;
    hide Flat;
    hide Selected;
    SelectedNone(frames, last + 1, from);
    SelectedRun(frames, from, until);
    SelectedNone(frames, until, n);
  }

  lemma LoudStretch(frames: seq<Bytes>, f: Bytes)
    requires Loud(f)
    ensures KeptStretch(frames + [f], |frames|, PrevLoud(frames, |frames|), WaitFrom(frames), WaitUntil(frames))
  {
    hide Kept;
    hide Loud;
    hide PrevLoud;
    var last := PrevLoud(frames, |frames|);
    forall k: nat | last < k < |frames|
      ensures Kept(frames + [f], k) == (WaitFrom(frames) <= k < WaitUntil(frames))
    {
      SilenceBetween(frames, f, k);
    }
  }

  lemma LoudSelects(frames: seq<Bytes>, f: Bytes)
    requires Loud(f)
    ensures WaitFrom(frames) <= WaitUntil(frames) <= |frames|
    ensures Selected(frames + [f], 0, |frames|)
         == Forwarded(frames) + Flat((frames + [f])[WaitFrom(frames)..WaitUntil(frames)])
  {
    hide Kept;
    hide KeptStretch;
    hide Loud;
    hide Flat;
    hide Selected;
    hide Forwarded;
    hide PrevLoud;
    hide WaitFrom;
    hide WaitUntil;
    var last := PrevLoud(frames, |frames|);
    LoudStretch(frames, f);
    WaitingIsStretch(frames, f);
    StretchSelects(frames + [f], |frames|, last, WaitFrom(frames), WaitUntil(frames));
    SelectedStays(frames, f, last + 1);
    ForwardedIs(frames);
  }

  lemma ForwardedIs(frames: seq<Bytes>)
    ensures Forwarded(frames) == Selected(frames, 0, PrevLoud(frames, |frames|) + 1)
  {
  }

  lemma LoudIsKept(frames: seq<Bytes>, k: nat)
    requires k < |frames| && Loud(frames[k])
    ensures Kept(frames, k)
  {
  }

  lemma WaitingIsStretch(frames: seq<Bytes>, f: Bytes)
    ensures WaitFrom(frames) <= WaitUntil(frames) <= |frames|
    ensures (frames + [f])[WaitFrom(frames)..WaitUntil(frames)] == Waiting(frames)
  {
    hide PrevLoud;
  }

  lemma LoudResets(frames: seq<Bytes>, f: Bytes)
    requires Loud(f)
    ensures Waiting(frames + [f]) == [] && PrevLoud(frames + [f], |frames| + 1) == |frames|
    ensures Forwarded(frames + [f]) == Selected(frames + [f], 0, |frames|) + f
  {
    hide Kept;
    hide PrevLoud;
    hide Loud;
    hide Selected;
    PrevOfSnoc(frames, f);
    SelectsLast(frames, f);
  }

  lemma SelectsLast(frames: seq<Bytes>, f: Bytes)
    requires Loud(f)
    ensures Selected(frames + [f], 0, |frames| + 1) == Selected(frames + [f], 0, |frames|) + f
  {
    hide Kept;
    hide Loud;
    LoudIsKept(frames + [f], |frames|);
  }

  lemma LoudForwards(frames: seq<Bytes>, f: Bytes)
    requires Loud(f)
    ensures Forwarded(frames + [f]) == Forwarded(frames) + Flat(Waiting(frames)) + f
    ensures Waiting(frames + [f]) == [] && PrevLoud(frames + [f], |frames| + 1) == |frames|
  {
    hide Kept;
    hide Flat;
    hide PrevLoud;
    hide Loud;
    hide Waiting;
    hide Forwarded;
    hide Selected;
    LoudResets(frames, f);
    LoudSelects(frames, f);
    WaitingIsStretch(frames, f);
  }

  // A silent frame after the last speech, judged when the next frame is loud.
  lemma SilenceBetween(frames: seq<Bytes>, f: Bytes, k: nat)
    requires Loud(f) && PrevLoud(frames, |frames|) < k < |frames|
    ensures var last := PrevLoud(frames, |frames|);
            Kept(frames + [f], k) == (if last < 0 then |frames| - k <= LEAD_KEEP else k - last <= GAP_KEEP)
  {
    PrevStays(frames, f, k);
    NextStays(frames, f, k);
    SilenceSince(frames, k);
  }

  // Between the last speech and the end there is no speech.
  lemma SilenceSince(frames: seq<Bytes>, k: nat)
    requires PrevLoud(frames, |frames|) < k < |frames|
    ensures PrevLoud(frames, k) == PrevLoud(frames, |frames|) && NextLoud(frames, k) == |frames|
  {
    var last := PrevLoud(frames, |frames|);
    assert !Loud(frames[k]);
    var p := PrevLoud(frames, k);
  }

  lemma QuietWaits(frames: seq<Bytes>, f: Bytes)
    requires !Loud(f)
    ensures Forwarded(frames + [f]) == Forwarded(frames)
    ensures PrevLoud(frames + [f], |frames| + 1) == PrevLoud(frames, |frames|)
    ensures var keep := if PrevLoud(frames, |frames|) < 0 then LEAD_KEEP else GAP_KEEP;
            && |Waiting(frames)| <= keep
            && Waiting(frames + [f])
               == if |Waiting(frames)| < keep then Waiting(frames) + [f]
                  else if PrevLoud(frames, |frames|) < 0 then Waiting(frames)[1..] + [f]
                  else Waiting(frames)
  {
    hide Kept;
    hide Selected;
    hide PrevLoud;
    hide Loud;
    hide Waiting;
    PrevOfSnoc(frames, f);
    SelectedStays(frames, f, PrevLoud(frames, |frames|) + 1);
    WaitingGrows(frames, f);
  }

  // Before any speech the newest frames wait, and a new one pushes the oldest out.
  lemma WaitsBefore(frames: seq<Bytes>)
    requires PrevLoud(frames, |frames|) < 0
    ensures Waiting(frames) == frames[|frames| - Min(LEAD_KEEP, |frames|)..]
  {
    hide PrevLoud;
    hide Loud;
  }

  // After speech the oldest frames wait.
  lemma WaitsAfter(frames: seq<Bytes>, from: nat)
    requires PrevLoud(frames, |frames|) == from - 1 && from > 0
    ensures from <= |frames| && Waiting(frames) == frames[from..from + Min(GAP_KEEP, |frames| - from)]
  {
    hide PrevLoud;
    hide Loud;
  }

  lemma WaitingGrows(frames: seq<Bytes>, f: Bytes)
    requires PrevLoud(frames + [f], |frames| + 1) == PrevLoud(frames, |frames|)
    ensures var keep := if PrevLoud(frames, |frames|) < 0 then LEAD_KEEP else GAP_KEEP;
            && |Waiting(frames)| <= keep
            && Waiting(frames + [f])
               == if |Waiting(frames)| < keep then Waiting(frames) + [f]
                  else if PrevLoud(frames, |frames|) < 0 then Waiting(frames)[1..] + [f]
                  else Waiting(frames)
  {
    hide PrevLoud;
    hide Waiting;
    hide Loud;
    var from := PrevLoud(frames, |frames|) + 1;
    if from <= 0 {
      WaitsBefore(frames);
      WaitsBefore(frames + [f]);
      LeadGrows(frames, f);
    } else {
      WaitsAfter(frames, from);
      WaitsAfter(frames + [f], from);
      PauseGrows(frames, f, from);
    }
  }

  lemma LeadGrows(frames: seq<Bytes>, f: Bytes)
    ensures var held := frames[|frames| - Min(LEAD_KEEP, |frames|)..];
            var held' := (frames + [f])[|frames| + 1 - Min(LEAD_KEEP, |frames| + 1)..];
            held' == if |held| < LEAD_KEEP then held + [f] else held[1..] + [f]
  {
  }

  lemma PauseGrows(frames: seq<Bytes>, f: Bytes, from: nat)
    requires from <= |frames|
    ensures var held := frames[from..from + Min(GAP_KEEP, |frames| - from)];
            var held' := (frames + [f])[from..from + Min(GAP_KEEP, |frames| + 1 - from)];
            held' == if |held| < GAP_KEEP then held + [f] else held
  {
  }

  // The end of the segment: of the waiting frames the tail is kept.
  lemma EndKeepsTail(frames: seq<Bytes>)
    ensures Selected(frames, 0, |frames|)
         == Forwarded(frames)
            + (if PrevLoud(frames, |frames|) < 0 then []
               else Flat(Waiting(frames)[..Min(TAIL_KEEP, |Waiting(frames)|)]))
  {
    hide Kept;
    hide Selected;
    hide Forwarded;
    hide PrevLoud;
    hide Loud;
    hide Flat;
    hide Waiting;
    var last := PrevLoud(frames, |frames|);
    var kept := if last < 0 then 0 else Min(TAIL_KEEP, |frames| - last - 1);
    assert KeptStretch(frames, |frames|, last, last + 1, last + 1 + kept) by {
      forall k: nat | last < k < |frames| ensures Kept(frames, k) == (last + 1 <= k < last + 1 + kept) {
        SilenceAtEnd(frames, k);
      }
    }
    StretchSelects(frames, |frames|, last, last + 1, last + 1 + kept);
    ForwardedIs(frames);
    if last < 0 {
      NothingIsFlat();
      assert frames[last + 1..last + 1 + kept] == [];
    } else {
      WaitsAfter(frames, last + 1);
      assert frames[last + 1..last + 1 + kept] == Waiting(frames)[..Min(TAIL_KEEP, |Waiting(frames)|)];
    }
  }

  lemma SilenceAtEnd(frames: seq<Bytes>, k: nat)
    requires PrevLoud(frames, |frames|) < k < |frames|
    ensures Kept(frames, k) == (PrevLoud(frames, |frames|) >= 0 && k - PrevLoud(frames, |frames|) <= TAIL_KEEP)
  {
    SilenceSince(frames, k);
  }

  // What is held after a silent frame, in bytes.
  lemma QuietHolds(frames: seq<Bytes>, f: Bytes)
    requires !Loud(f) && Whole(frames) && |f| == FRAME_BYTES
    ensures Forwarded(frames + [f]) == Forwarded(frames)
    ensures PrevLoud(frames + [f], |frames| + 1) == PrevLoud(frames, |frames|)
    ensures var held := Flat(Waiting(frames));
            var keep := if PrevLoud(frames, |frames|) < 0 then LEAD_KEEP else GAP_KEEP;
            && (|held| >= keep * FRAME_BYTES && PrevLoud(frames, |frames|) < 0 ==> |held| >= FRAME_BYTES)
            && Flat(Waiting(frames + [f]))
               == if |held| < keep * FRAME_BYTES then held + f
                  else if PrevLoud(frames, |frames|) < 0 then held[FRAME_BYTES..] + f
                  else held
  {
    hide Flat;
    hide PrevLoud;
    hide Waiting;
    hide Forwarded;
    hide Loud;
    var waiting := Waiting(frames);
    QuietWaits(frames, f);
    WaitingIsWhole(frames);
    FlatLength(waiting);
    FlatSnoc(waiting, f);
    if waiting != [] {
      FlatDrop(waiting, 1);
      FlatSnoc(waiting[1..], f);
    }
  }

  lemma WaitingIsWhole(frames: seq<Bytes>)
    requires Whole(frames)
    ensures Whole(Waiting(frames)) && |Waiting(frames)| <= GAP_KEEP
  {
  }

  // ---- the gate -------------------------------------------------------------------------------------------

  class Gate {
    var part: Bytes
    var held: Bytes
    var started: bool

    // The segment so far, its whole frames, and what has been forwarded of it.
    ghost var stream: Bytes
    ghost var frames: seq<Bytes>
    ghost var forwarded: Bytes

    ghost predicate Core()
      reads this
    {
      && Whole(frames)
      && stream == Flat(frames) + part
      && started == (PrevLoud(frames, |frames|) >= 0)
      && held == Flat(Waiting(frames))
      && forwarded == Forwarded(frames)
    }

    ghost predicate Valid()
      reads this
    {
      Core() && |part| < FRAME_BYTES && frames == Frames(stream) && |held| <= GAP_KEEP * FRAME_BYTES
    }

    constructor ()
      ensures Valid() && stream == [] && forwarded == []
    {
      hide Flat;
      hide PrevLoud;
      hide Waiting;
      hide Forwarded;
      hide Frames;
      NewGate();
      part, held, started := [], [], false;
      stream, frames, forwarded := [], [], [];
    }

    // One frame off the front of part.
    method TakeFrame() returns (out: Bytes)
      requires Core() && |part| >= FRAME_BYTES
      modifies this`part, this`held, this`started, this`frames, this`forwarded
      ensures Core() && part == old(part)[FRAME_BYTES..] && forwarded == old(forwarded) + out
      ensures frames == old(frames) + [old(part)[..FRAME_BYTES]]
    {
      hide Flat;
      hide PrevLoud;
      hide Waiting;
      hide Forwarded;
      hide Loud;
      var f := part[..FRAME_BYTES];
      var keep := if started then GAP_KEEP else LEAD_KEEP;
      FlatSnoc(frames, f);
      assert stream == Flat(frames) + f + part[FRAME_BYTES..];
      var loud := IsLoud(f);
      if loud {
        LoudForwards(frames, f);
        NothingIsFlat();
        out := held + f;
        held := [];
        started := true;
      } else {
        QuietHolds(frames, f);
        out := [];
        if |held| < keep * FRAME_BYTES {
          held := held + f;
        } else if !started {
          held := held[FRAME_BYTES..] + f;
        }
      }
      frames := frames + [f];
      forwarded := forwarded + out;
      part := part[FRAME_BYTES..];
    }

    // push.
    method Push(pcm: Bytes) returns (out: Bytes)
      requires Valid()
      modifies this
      ensures Valid() && stream == old(stream) + pcm && forwarded == old(forwarded) + out
    {
      hide Flat;
      hide Waiting;
      hide Forwarded;
      hide PrevLoud;
      part := part + pcm;
      stream := stream + pcm;
      out := [];
      while |part| >= FRAME_BYTES
        invariant Core() && stream == old(stream) + pcm && forwarded == old(forwarded) + out
        decreases |part|
      {
        var more := TakeFrame();
        out := out + more;
      }
      FramesAppend(stream, [], frames, part);
      assert stream + [] == stream && part + [] == part && frames + [] == frames;
      WaitingIsWhole(frames);
      FlatLength(Waiting(frames));
    }

    // finish: with it the segment's output is exactly the gated stream, however
    // the stream was sliced into pushes.
    method Finish() returns (out: Bytes)
      requires Valid()
      modifies this
      ensures old(forwarded) + out == Gated(old(stream))
      ensures Valid() && stream == [] && forwarded == []
    {
      hide Flat;
      hide PrevLoud;
      hide Waiting;
      hide Forwarded;
      hide Frames;
      hide Selected;
      NewGate();
      out := [];
      EndKeepsTail(frames);
      WaitingIsWhole(frames);
      FlatLength(Waiting(frames));
      if started {
        FlatDrop(Waiting(frames), Min(TAIL_KEEP, |Waiting(frames)|));
        out := held[..Min(|held|, TAIL_KEEP * FRAME_BYTES)];
      }
      part, held, started := [], [], false;
      stream, frames, forwarded := [], [], [];
    }
  }

  // Before anything is pushed nothing is held or forwarded.
  lemma NewGate()
    ensures Frames([]) == [] && Flat([]) == [] && PrevLoud([], 0) == -1
    ensures Waiting([]) == [] && Forwarded([]) == []
  {
  }

  lemma NothingIsFlat()
    ensures Flat([]) == []
  {
  }
}
