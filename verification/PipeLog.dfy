// What one pipeline sends the actor, read as a log
// (internal/session/pipeline.go).
module PipeLog {
  import opened Utf8
  import opened Conversations
  import opened Events
  import opened SentenceBoundaries
  import Truncation

  // ---- one fact -----------------------------------------------------------------------------------

  predicate IsText(ev: PipeEvent) {
    ev.PipeTextDelta? || ev.PipeTranscriptDelta?
  }

  function TextOf(ev: PipeEvent): Text {
    if IsText(ev) then ev.delta else []
  }

  function BytesOf(ev: PipeEvent): nat {
    if ev.PipeAudioDelta? then |ev.pcm| else 0
  }

  function SegmentsOf(ev: PipeEvent): seq<Segment> {
    if ev.PipeSegment? then [ev.segment] else []
  }

  function TimingsOf(ev: PipeEvent): seq<CharTiming> {
    if ev.PipeAlignment? then ev.timings else []
  }

  // ---- a whole log --------------------------------------------------------------------------------

  function TextIn(log: seq<PipeEvent>): Text {
    if log == [] then [] else TextIn(log[..|log| - 1]) + TextOf(log[|log| - 1])
  }

  function AudioIn(log: seq<PipeEvent>): nat {
    if log == [] then 0 else AudioIn(log[..|log| - 1]) + BytesOf(log[|log| - 1])
  }

  function SegmentsIn(log: seq<PipeEvent>): seq<Segment> {
    if log == [] then [] else SegmentsIn(log[..|log| - 1]) + SegmentsOf(log[|log| - 1])
  }

  function TimingsIn(log: seq<PipeEvent>): seq<CharTiming> {
    if log == [] then [] else TimingsIn(log[..|log| - 1]) + TimingsOf(log[|log| - 1])
  }

  // How the LLM said it finished, once it has.
  function FinishIn(log: seq<PipeEvent>): Option<Finish> {
    if log == [] then None
    else if log[|log| - 1].PipeLlmDone? then Some(log[|log| - 1].finish)
    else FinishIn(log[..|log| - 1])
  }

  predicate Spoke(log: seq<PipeEvent>) {
    log != [] && (Spoke(log[..|log| - 1]) || IsText(log[|log| - 1]))
  }

  predicate LlmOver(log: seq<PipeEvent>) {
    log != [] && (LlmOver(log[..|log| - 1]) || log[|log| - 1].PipeLlmDone?)
  }

  predicate TtsOver(log: seq<PipeEvent>) {
    log != [] && (TtsOver(log[..|log| - 1]) || log[|log| - 1].PipeTtsDone?)
  }

  function TextEnd(segs: seq<Segment>): nat {
    if segs == [] then 0 else segs[|segs| - 1].textEnd
  }

  function AudioEnd(segs: seq<Segment>): nat {
    if segs == [] then 0 else segs[|segs| - 1].audioEnd
  }

  ghost predicate EndsOnRunes(text: Text, segs: seq<Segment>) {
    forall i :: 0 <= i < |segs| ==> Settled(text, segs[i].textEnd)
  }

  // Whose log it is.
  datatype Sender = Sender(gen: Generation, resp: ResponseRef, textOnly: bool)

  // e may follow front: facts name their response and modality, text and calls
  // come before the LLM is done, audio and segments before TTS is done, and a
  // segment follows on from the last one, inside the text and the audio that
  // have already been sent. When whole is set no stage has been stopped: then
  // segments end between runes and, by the time TTS is done, cover everything.
  ghost predicate MayFollow(front: seq<PipeEvent>, e: PipeEvent, s: Sender, whole: bool) {
    && e.gen == s.gen
    && match e
       case PipeTextDelta(_, resp, _) => resp == s.resp && s.textOnly && TextMayFollow(front, whole)
       case PipeTranscriptDelta(_, resp, _) => resp == s.resp && !s.textOnly && TextMayFollow(front, whole)
       case PipeAudioDelta(_, resp, _) => resp == s.resp && !s.textOnly && Spoke(front) && !TtsOver(front)
       case PipeToolCall(_, _) => !LlmOver(front)
       case PipeLlmDone(_, _) => !LlmOver(front)
       case PipeAlignment(_, _) => !s.textOnly && Spoke(front) && !TtsOver(front)
       case PipeSegment(_, seg) => !s.textOnly && Spoke(front) && !TtsOver(front) && SegmentMayFollow(front, seg, whole)
       case PipeTtsDone(_) =>
         && !s.textOnly && !TtsOver(front)
         && (whole ==> TextEnd(SegmentsIn(front)) == |TextIn(front)| && AudioEnd(SegmentsIn(front)) == AudioIn(front))
       case _ => true
  }

  ghost predicate TextMayFollow(front: seq<PipeEvent>, whole: bool) {
    && !LlmOver(front)
    && (whole ==> !TtsOver(front) && EndsOnRunes(TextIn(front), SegmentsIn(front)))
  }

  ghost predicate SegmentMayFollow(front: seq<PipeEvent>, seg: Segment, whole: bool) {
    && seg.textStart == TextEnd(SegmentsIn(front)) <= seg.textEnd <= |TextIn(front)|
    && seg.audioStart == AudioEnd(SegmentsIn(front)) <= seg.audioEnd == AudioIn(front)
    && (whole ==> Settled(TextIn(front), seg.textEnd) || seg.textEnd == |TextIn(front)|)
  }

  ghost predicate Coherent(log: seq<PipeEvent>, s: Sender, whole: bool) {
    log == [] ||
    (Coherent(log[..|log| - 1], s, whole) && MayFollow(log[..|log| - 1], log[|log| - 1], s, whole))
  }

  // ---- taking logs apart ------------------------------------------------------------------------------

  lemma Snoc(log: seq<PipeEvent>, e: PipeEvent)
    ensures TextIn(log + [e]) == TextIn(log) + TextOf(e)
    ensures AudioIn(log + [e]) == AudioIn(log) + BytesOf(e)
    ensures SegmentsIn(log + [e]) == SegmentsIn(log) + SegmentsOf(e)
    ensures TimingsIn(log + [e]) == TimingsIn(log) + TimingsOf(e)
    ensures FinishIn(log + [e]) == if e.PipeLlmDone? then Some(e.finish) else FinishIn(log)
    ensures Spoke(log + [e]) == (Spoke(log) || IsText(e))
    ensures LlmOver(log + [e]) == (LlmOver(log) || e.PipeLlmDone?)
    ensures TtsOver(log + [e]) == (TtsOver(log) || e.PipeTtsDone?)
  {
    assert (log + [e])[..|log|] == log;
  }

  lemma CoherentSnoc(log: seq<PipeEvent>, e: PipeEvent, s: Sender, whole: bool)
    requires Coherent(log, s, whole) && MayFollow(log, e, s, whole)
    ensures Coherent(log + [e], s, whole)
  {
    hide MayFollow;
    assert (log + [e])[..|log|] == log;
  }

  lemma {:induction false} CoherentWeaken(log: seq<PipeEvent>, s: Sender)
    requires Coherent(log, s, true)
    ensures Coherent(log, s, false)
  {
    if log != [] {
      CoherentWeaken(log[..|log| - 1], s);
    }
  }

  lemma {:induction false} CoherentPrefix(log: seq<PipeEvent>, n: nat, s: Sender, whole: bool)
    requires Coherent(log, s, whole) && n <= |log|
    ensures Coherent(log[..n], s, whole)
    decreases |log|
  {
    hide MayFollow;
    if n == |log| {
      assert log[..n] == log;
    } else {
      var front := log[..|log| - 1];
      CoherentPrefix(front, n, s, whole);
      assert front[..n] == log[..n];
    }
  }

  // What may come next in a log known to be coherent.
  lemma NextMayFollow(log: seq<PipeEvent>, n: nat, s: Sender, whole: bool)
    requires Coherent(log, s, whole) && n < |log|
    ensures MayFollow(log[..n], log[n], s, whole)
  {
    hide MayFollow;
    CoherentPrefix(log, n + 1, s, whole);
    assert log[..n + 1][..n] == log[..n];
  }

  lemma {:induction false} TextIsSpoken(log: seq<PipeEvent>)
    requires !Spoke(log)
    ensures TextIn(log) == []
  {
    if log != [] {
      TextIsSpoken(log[..|log| - 1]);
    }
  }

  // ---- what a coherent log says -------------------------------------------------------------------------

  lemma {:induction false} TiledSnoc(segs: seq<Segment>, seg: Segment, t: nat, a: nat, tEnd: nat, aEnd: nat)
    requires Truncation.Tiled(segs, t, a, tEnd, aEnd)
    requires seg.textStart == tEnd <= seg.textEnd && seg.audioStart == aEnd <= seg.audioEnd
    ensures Truncation.Tiled(segs + [seg], t, a, seg.textEnd, seg.audioEnd)
    decreases |segs|
  {
    if segs == [] {
      assert (segs + [seg])[1..] == [];
    } else {
      TiledSnoc(segs[1..], seg, segs[0].textEnd, segs[0].audioEnd, tEnd, aEnd);
      assert (segs + [seg])[1..] == segs[1..] + [seg];
    }
  }

  // The segments sent so far tile the text and the audio sent so far.
  lemma {:induction false} SegmentsTile(log: seq<PipeEvent>, s: Sender, whole: bool)
    requires Coherent(log, s, whole)
    ensures var segs := SegmentsIn(log);
            && Truncation.Tiled(segs, 0, 0, TextEnd(segs), AudioEnd(segs))
            && TextEnd(segs) <= |TextIn(log)| && AudioEnd(segs) <= AudioIn(log)
  {
    hide Settled;
    if log != [] {
      var front := log[..|log| - 1];
      var e := log[|log| - 1];
      SegmentsTile(front, s, whole);
      if e.PipeSegment? {
        var segs := SegmentsIn(front);
        TiledSnoc(segs, e.segment, 0, 0, TextEnd(segs), AudioEnd(segs));
        assert SegmentsIn(log) == segs + [e.segment];
      } else {
        assert SegmentsIn(log) == SegmentsIn(front);
      }
    }
  }

  lemma {:induction false} SegmentsEndOnRunes(log: seq<PipeEvent>, s: Sender)
    requires Coherent(log, s, true)
    ensures forall i :: 0 <= i < |SegmentsIn(log)| ==>
              var k := SegmentsIn(log)[i].textEnd; Settled(TextIn(log), k) || k == |TextIn(log)|
  {
    hide Settled;
    if log != [] {
      var front := log[..|log| - 1];
      var e := log[|log| - 1];
      SegmentsEndOnRunes(front, s);
      forall i | 0 <= i < |SegmentsIn(front)| && IsText(e)
        ensures Settled(TextIn(log), SegmentsIn(front)[i].textEnd)
      {
        SettledExtends(TextIn(front), TextOf(e), SegmentsIn(front)[i].textEnd);
      }
      if !IsText(e) { assert TextIn(log) == TextIn(front); }
    }
  }

  // Truncation may rely on what the actor records of such a log.
  lemma SegmentsFit(log: seq<PipeEvent>, s: Sender)
    requires Coherent(log, s, true)
    ensures Truncation.Fits(TextIn(log), SegmentsIn(log), AudioIn(log))
  {
    SegmentsTile(log, s, true);
    SegmentsEndOnRunes(log, s);
    var text := TextIn(log);
    var segs := SegmentsIn(log);
    WholeTextIsBoundary(text);
    forall i | 0 <= i < |segs| ensures Boundary(text, segs[i].textEnd) {
      if Settled(text, segs[i].textEnd) { SettledIsBoundary(text, segs[i].textEnd); }
    }
  }

  // Once the LLM is done no text follows; once TTS is done no audio and no
  // segment; a pipeline that has said nothing by the time the LLM is done never
  // makes a sound.
  lemma {:induction false} NothingFollows(log: seq<PipeEvent>, n: nat, s: Sender, whole: bool)
    requires Coherent(log, s, whole) && n <= |log|
    ensures LlmOver(log[..n]) ==>
              && TextIn(log) == TextIn(log[..n]) && FinishIn(log) == FinishIn(log[..n])
              && LlmOver(log) && Spoke(log) == Spoke(log[..n])
    ensures TtsOver(log[..n]) ==>
              && AudioIn(log) == AudioIn(log[..n]) && SegmentsIn(log) == SegmentsIn(log[..n])
              && TimingsIn(log) == TimingsIn(log[..n]) && TtsOver(log)
    decreases |log|
  {
    hide Settled;
    if n == |log| {
      assert log[..n] == log;
    } else {
      var front := log[..|log| - 1];
      NothingFollows(front, n, s, whole);
      assert front[..n] == log[..n];
    }
  }

  lemma {:induction false} SilentWithoutText(log: seq<PipeEvent>, s: Sender, whole: bool)
    requires Coherent(log, s, whole) && !Spoke(log)
    ensures AudioIn(log) == 0 && SegmentsIn(log) == [] && TextIn(log) == [] && TimingsIn(log) == []
  {
    if log != [] {
      SilentWithoutText(log[..|log| - 1], s, whole);
    }
  }

  // When TTS is done and no stage was stopped, the segments cover all of the
  // text and all of the audio.
  lemma {:induction false} TtsDoneCovers(log: seq<PipeEvent>, s: Sender)
    requires Coherent(log, s, true) && TtsOver(log)
    ensures TextEnd(SegmentsIn(log)) == |TextIn(log)| && AudioEnd(SegmentsIn(log)) == AudioIn(log)
  {
    hide Settled;
    hide TextIn;
    hide AudioIn;
    hide SegmentsIn;
    hide Spoke;
    var front, e := log[..|log| - 1], log[|log| - 1];
    assert log == front + [e];
    Snoc(front, e);
    if TtsOver(front) {
      TtsDoneCovers(front, s);
    }
  }
}
