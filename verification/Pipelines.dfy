// One response's pipeline: the LLM, sentencer and TTS stages as steps over the
// channels between them (internal/session/pipeline.go:62-259). Channels are
// unbounded queues, so every schedule of the bounded ones is covered.
module Pipelines {
  import opened Audio
  import opened Utf8
  import opened Conversations
  import opened Events
  import opened Sentences
  import opened SentenceBoundaries
  import opened PipeLog

  // Handing: the delta has gone to the actor and is on its way to the sentencer.
  datatype LlmAt = Reading | Handing(delta: Text) | LlmEnded

  // Flushed: the text has ended, what is left of it is being handed on.
  datatype SplitAt = Splitting | Flushed | SplitEnded

  datatype TtsAt =
    | Waiting
    | Announcing(sentence: Sentence)
    | Synthesizing(sentence: Sentence, total: nat)
    | Reporting(sentence: Sentence, total: nat)
    | TtsEnded

  // fed is the text the sentencer has taken in; found what push or flush
  // returned and the stage has still to hand on; textPos the end of the last
  // sentence dealt with; log everything sent to the actor; stopped whether a
  // stage has given up because the context is done.
  datatype Pipe = Pipe(
    sender: Sender,
    llm: LlmAt,
    chunks: seq<Text>,
    split: SplitAt,
    fed: Text,
    splitter: Splitter,
    found: seq<Sentence>,
    sentences: seq<Sentence>,
    tts: TtsAt,
    started: bool,
    textPos: nat,
    audioPos: nat,
    stopped: bool,
    log: seq<PipeEvent>)

  function NewPipe(sender: Sender): Pipe {
    Pipe(sender, Reading, [], Splitting, [], Sentences.EMPTY, [], [], Waiting, false, 0, 0, false, [])
  }

  // LlmFail and SynthFail: the provider failed; a failure that is really a
  // cancellation is not reported. Stop: the stage sees its context done.
  datatype Action =
    | LlmText(delta: Text)
    | LlmCall(call: ToolCall)
    | LlmFinish(finish: Finish)
    | LlmFail(reported: bool)
    | HandChunk
    | TakeChunk
    | GiveSentence
    | EndOfText
    | CloseSentences
    | TakeSentence
    | Announce
    | SynthAudio(pcm: Bytes)
    | SynthAlignment(timings: seq<CharTiming>)
    | SynthEnd
    | SynthFail(reported: bool)
    | Report
    | EndOfSentences
    | StopLlm
    | StopSplit
    | StopTts

  predicate IsStop(a: Action) {
    a.StopLlm? || a.StopSplit? || a.StopTts?
  }

  predicate Enabled(p: Pipe, a: Action) {
    match a
    case LlmText(_) => p.llm.Reading?
    case LlmCall(_) => p.llm.Reading?
    case LlmFinish(_) => p.llm.Reading?
    case LlmFail(_) => p.llm.Reading?
    case HandChunk => p.llm.Handing?
    case TakeChunk => p.split.Splitting? && p.found == [] && p.chunks != []
    case GiveSentence => !p.split.SplitEnded? && p.found != []
    case EndOfText => p.split.Splitting? && p.found == [] && p.chunks == [] && p.llm.LlmEnded?
    case CloseSentences => p.split.Flushed? && p.found == []
    case TakeSentence => p.tts.Waiting? && p.sentences != []
    case Announce => p.tts.Announcing?
    case SynthAudio(pcm) => p.tts.Synthesizing? && pcm != []
    case SynthAlignment(timings) => p.tts.Synthesizing? && timings != []
    case SynthEnd => p.tts.Synthesizing?
    case SynthFail(_) => p.tts.Synthesizing?
    case Report => p.tts.Reporting?
    case EndOfSentences => p.tts.Waiting? && p.sentences == [] && p.split.SplitEnded?
    case StopLlm => !p.llm.LlmEnded?
    case StopSplit => !p.split.SplitEnded?
    case StopTts => !p.tts.TtsEnded?
  }

  function WholeSamples(pcm: Bytes): Bytes {
    pcm[..AlignDown(|pcm|)]
  }

  function TextFact(s: Sender, delta: Text): PipeEvent {
    if s.textOnly then PipeTextDelta(s.gen, s.resp, delta) else PipeTranscriptDelta(s.gen, s.resp, delta)
  }

  function SegmentOf(p: Pipe): Segment
    requires p.tts.Reporting?
  {
    Segment(p.tts.sentence.start, p.tts.sentence.end, p.audioPos, p.audioPos + p.tts.total)
  }

  // What a step sends the actor.
  function Sent(p: Pipe, a: Action): seq<PipeEvent>
    requires Enabled(p, a)
  {
    match a
    case LlmText(delta) => [TextFact(p.sender, delta)]
    case LlmCall(call) => [PipeToolCall(p.sender.gen, call)]
    case LlmFinish(finish) => [PipeLlmDone(p.sender.gen, finish)]
    case LlmFail(reported) => if reported then [PipeError(p.sender.gen, LlmStage)] else []
    case Announce => [PipeTtsStart(p.sender.gen)]
    case SynthAudio(pcm) => [PipeAudioDelta(p.sender.gen, p.sender.resp, WholeSamples(pcm))]
    case SynthAlignment(timings) => [PipeAlignment(p.sender.gen, timings)]
    case SynthFail(reported) => if reported then [PipeError(p.sender.gen, TtsStage)] else []
    case Report => [PipeSegment(p.sender.gen, SegmentOf(p))]
    case EndOfSentences => if p.sender.textOnly then [] else [PipeTtsDone(p.sender.gen)]
    case _ => []
  }

  // The stage's own move, apart from what it sends.
  function Move(isLetter: Rune -> bool, p: Pipe, a: Action): Pipe
    requires Enabled(p, a) && WellFormed(p.splitter)
  {
    match a
    case LlmText(delta) => p.(llm := Handing(delta))
    case LlmFinish(_) => p.(llm := LlmEnded)
    case LlmFail(_) => p.(llm := LlmEnded)
    case HandChunk => p.(llm := Reading, chunks := p.chunks + [p.llm.delta])
    case TakeChunk =>
      var (s, found) := Push(isLetter, p.splitter, p.chunks[0]);
      p.(chunks := p.chunks[1..], fed := p.fed + p.chunks[0], splitter := s, found := found)
    case GiveSentence => p.(found := p.found[1..], sentences := p.sentences + [p.found[0]])
    case EndOfText =>
      var (s, found) := Flush(p.splitter);
      p.(split := Flushed, splitter := s, found := found)
    case CloseSentences => p.(split := SplitEnded)
    case TakeSentence => Taken(p.(sentences := p.sentences[1..]), p.sentences[0])
    case Announce => p.(started := true, tts := Synthesizing(p.tts.sentence, 0))
    case SynthAudio(pcm) => p.(tts := Synthesizing(p.tts.sentence, p.tts.total + |WholeSamples(pcm)|))
    case SynthEnd => p.(tts := Reporting(p.tts.sentence, p.tts.total))
    case SynthFail(_) => p.(tts := TtsEnded)
    case Report => p.(tts := Waiting, textPos := p.tts.sentence.end, audioPos := p.audioPos + p.tts.total)
    case EndOfSentences => p.(tts := TtsEnded)
    case StopLlm => p.(llm := LlmEnded, stopped := true)
    case StopSplit => p.(split := SplitEnded, stopped := true)
    case StopTts => p.(tts := TtsEnded, stopped := true)
    case _ => p
  }

  // A text-only response discards its sentences; a blank one is not synthesized.
  function Taken(p: Pipe, sn: Sentence): Pipe {
    if p.sender.textOnly then p.(textPos := sn.end)
    else if Blank(sn.text) then p.(tts := Reporting(sn, 0))
    else if p.started then p.(tts := Synthesizing(sn, 0))
    else p.(tts := Announcing(sn))
  }

  function Act(isLetter: Rune -> bool, p: Pipe, a: Action): Pipe
    requires Enabled(p, a) && WellFormed(p.splitter)
  {
    Move(isLetter, p, a).(log := p.log + Sent(p, a))
  }

  // ---- invariants -----------------------------------------------------------------------------------

  // The sentence the TTS stage is busy with.
  function Current(t: TtsAt): seq<Sentence> {
    if t.Waiting? || t.TtsEnded? then [] else [t.sentence]
  }

  // Sentences cut but not yet dealt with, in order.
  function Ahead(p: Pipe): seq<Sentence> {
    Current(p.tts) + p.sentences + p.found
  }

  function InHand(l: LlmAt): Text {
    if l.Handing? then l.delta else []
  }

  // The text on its way: taken in, queued, in hand.
  function OnItsWay(p: Pipe): Text {
    p.fed + Concat(p.chunks) + InHand(p.llm)
  }

  // Every delta reaches the actor before the sentencer.
  ghost predicate TextInv(p: Pipe) {
    && OnItsWay(p) <= TextIn(p.log)
    && (!p.stopped || !p.llm.LlmEnded? ==> OnItsWay(p) == TextIn(p.log))
    && (!p.llm.LlmEnded? ==> !LlmOver(p.log))
    && (!p.stopped && !p.split.Splitting? ==> p.llm.LlmEnded? && p.chunks == [])
  }

  // The sentences ahead tile the text from where TTS stands to where the
  // splitter stands; unless it is the very last, a sentence ends between runes.
  ghost predicate SplitInv(p: Pipe) {
    && Holds(p.splitter, p.fed)
    && (p.split.Splitting? ==> OnRunes(p.splitter, p.fed))
    && (!p.stopped && !p.split.Splitting? ==> p.splitter.base == |p.fed|)
    && (!p.stopped && p.split.SplitEnded? ==> p.found == [])
    && (p.tts.TtsEnded? || Tiles(Ahead(p), p.fed, p.textPos, p.splitter.base))
    && (!p.stopped ==> forall i :: 0 <= i < |Ahead(p)| ==> EndsWell(p, Ahead(p)[i].end))
  }

  ghost predicate EndsWell(p: Pipe, end: nat) {
    Settled(p.fed, end) || (!p.split.Splitting? && end == |p.fed|)
  }

  ghost predicate TtsInv(p: Pipe) {
    && (!p.tts.TtsEnded? ==> !TtsOver(p.log) && AudioIn(p.log) == p.audioPos + Pending(p.tts))
    && (!p.sender.textOnly ==> TextEnd(SegmentsIn(p.log)) == p.textPos && AudioEnd(SegmentsIn(p.log)) == p.audioPos)
    && (p.sender.textOnly ==> p.tts.Waiting? || p.tts.TtsEnded?)
    && (!p.stopped && TtsOver(p.log) ==> p.llm.LlmEnded?)
    && (!p.stopped && !p.llm.LlmEnded? ==> EndsOnRunes(TextIn(p.log), SegmentsIn(p.log)))
  }

  function Pending(t: TtsAt): nat {
    if t.Synthesizing? || t.Reporting? then t.total else 0
  }

  ghost predicate PipeInv(p: Pipe) {
    && WellFormed(p.splitter)
    && Coherent(p.log, p.sender, !p.stopped)
    && TextInv(p) && SplitInv(p) && TtsInv(p)
  }

  lemma NewPipeInv(s: Sender)
    ensures PipeInv(NewPipe(s))
  {
    ZeroIsSettled([]);
    SettledExtends([], [], 0);
  }

  // ---- LLM stage ---------------------------------------------------------------------------------------

  lemma EndsExtend(text: Text, more: Text, segs: seq<Segment>)
    requires EndsOnRunes(text, segs)
    ensures EndsOnRunes(text + more, segs)
  {
    hide Settled;
    forall i | 0 <= i < |segs| ensures Settled(text + more, segs[i].textEnd) {
      SettledExtends(text, more, segs[i].textEnd);
    }
  }

  // Steps that leave the sentences ahead where they are, or end the TTS stage.
  predicate SameAhead(p: Pipe, p': Pipe) {
    && p'.splitter == p.splitter && p'.fed == p.fed && p'.split == p.split && p'.found == p.found
    && p'.textPos == p.textPos && p'.stopped == p.stopped
    && if p'.tts.TtsEnded? then Ahead(p') == Ahead(p) || (Ahead(p) != [] && Ahead(p') == Ahead(p)[1..])
       else !p.tts.TtsEnded? && Ahead(p') == Ahead(p)
  }

  lemma SplitFrame(p: Pipe, p': Pipe)
    requires SplitInv(p) && SameAhead(p, p')
    ensures SplitInv(p')
  {
    hide Settled;
    hide Holds;
    hide OnRunes;
    hide Tiles;
  }

  lemma LlmTextTold(p: Pipe, p': Pipe, delta: Text)
    requires TextInv(p) && TtsInv(p) && p.llm.Reading?
    requires p' == p.(llm := Handing(delta), log := p.log + [TextFact(p.sender, delta)])
    ensures TextInv(p') && TtsInv(p')
  {
    hide Settled;
    Snoc(p.log, TextFact(p.sender, delta));
    if !p.stopped { EndsExtend(TextIn(p.log), delta, SegmentsIn(p.log)); }
    assert OnItsWay(p') == OnItsWay(p) + delta;
  }

  lemma LlmTextKeeps(isLetter: Rune -> bool, p: Pipe, delta: Text)
    requires PipeInv(p) && p.llm.Reading?
    ensures PipeInv(Act(isLetter, p, LlmText(delta)))
  {
    hide Settled;
    hide Coherent;
    hide SplitInv;
    hide OnItsWay;
    var p' := Act(isLetter, p, LlmText(delta));
    LlmTextTold(p, p', delta);
    SplitFrame(p, p');
    CoherentSnoc(p.log, TextFact(p.sender, delta), p.sender, !p.stopped);
  }

  // A fact with no text, audio or segment in it.
  predicate Neutral(e: PipeEvent) {
    e.PipeToolCall? || e.PipeLlmDone? || e.PipeTtsStart? || e.PipeAlignment? || e.PipeError? || e.PipeTtsDone?
  }

  lemma NeutralSnoc(log: seq<PipeEvent>, e: PipeEvent)
    requires Neutral(e)
    ensures TextIn(log + [e]) == TextIn(log) && AudioIn(log + [e]) == AudioIn(log)
    ensures SegmentsIn(log + [e]) == SegmentsIn(log) && Spoke(log + [e]) == Spoke(log)
    ensures LlmOver(log + [e]) == (LlmOver(log) || e.PipeLlmDone?)
    ensures TtsOver(log + [e]) == (TtsOver(log) || e.PipeTtsDone?)
  {
    Snoc(log, e);
  }

  lemma LlmOtherKeeps(isLetter: Rune -> bool, p: Pipe, a: Action)
    requires PipeInv(p) && Enabled(p, a) && (a.LlmCall? || a.LlmFinish? || a.LlmFail?)
    ensures PipeInv(Act(isLetter, p, a))
  {
    hide Settled;
    hide Coherent;
    hide TextIn;
    hide SegmentsIn;
    hide SplitInv;
    var p' := Act(isLetter, p, a);
    var es := Sent(p, a);
    if es == [] {
      assert p'.log == p.log;
    } else {
      assert es == [es[0]];
      NeutralSnoc(p.log, es[0]);
      CoherentSnoc(p.log, es[0], p.sender, !p.stopped);
    }
    SplitFrame(p, p');
  }

  lemma {:induction false} ConcatSnoc(chunks: seq<Text>, chunk: Text)
    ensures Concat(chunks + [chunk]) == Concat(chunks) + chunk
    decreases |chunks|
  {
    if chunks == [] {
      assert (chunks + [chunk])[1..] == [];
    } else {
      assert (chunks + [chunk])[1..] == chunks[1..] + [chunk];
      ConcatSnoc(chunks[1..], chunk);
    }
  }

  lemma HandChunkKeeps(isLetter: Rune -> bool, p: Pipe)
    requires PipeInv(p) && p.llm.Handing?
    ensures PipeInv(Act(isLetter, p, HandChunk))
  {
    hide Settled;
    hide Coherent;
    hide SplitInv;
    var p' := Act(isLetter, p, HandChunk);
    assert p'.log == p.log;
    SplitFrame(p, p');
    ChunkOnItsWay(p, p');
  }

  lemma ChunkOnItsWay(p: Pipe, p': Pipe)
    requires p.llm.Handing? && p' == p.(llm := Reading, chunks := p.chunks + [p.llm.delta])
    ensures OnItsWay(p') == OnItsWay(p)
  {
    ConcatSnoc(p.chunks, p.llm.delta);
  }

  // ---- sentencer stage ------------------------------------------------------------------------------------

  lemma TakeChunkText(isLetter: Rune -> bool, p: Pipe)
    requires TextInv(p) && WellFormed(p.splitter) && Enabled(p, TakeChunk)
    ensures TextInv(Move(isLetter, p, TakeChunk))
  {
    hide Push;
    assert OnItsWay(Move(isLetter, p, TakeChunk)) == OnItsWay(p);
  }

  lemma TakeChunkSplit(isLetter: Rune -> bool, p: Pipe)
    requires SplitInv(p) && Enabled(p, TakeChunk)
    ensures SplitInv(Move(isLetter, p, TakeChunk))
  {
    hide Push;
    hide Settled;
    var p' := Move(isLetter, p, TakeChunk);
    var chunk := p.chunks[0];
    PushTiles(isLetter, p.splitter, chunk, p.fed);
    PushIsSettled(isLetter, p.splitter, chunk, p.fed);
    assert Ahead(p') == Ahead(p) + p'.found;
    if !p.tts.TtsEnded? {
      TilesExtend(Ahead(p), p.fed, chunk, p.textPos, p.splitter.base);
      TilesConcat(Ahead(p), p'.found, p'.fed, p.textPos, p.splitter.base, p'.splitter.base);
    }
    forall i | !p.stopped && 0 <= i < |Ahead(p')| ensures EndsWell(p', Ahead(p')[i].end) {
      if i < |Ahead(p)| { SettledExtends(p.fed, chunk, Ahead(p)[i].end); }
    }
  }

  lemma TakeChunkKeeps(isLetter: Rune -> bool, p: Pipe)
    requires PipeInv(p) && Enabled(p, TakeChunk)
    ensures PipeInv(Act(isLetter, p, TakeChunk))
  {
    hide Settled;
    hide Coherent;
    hide Push;
    TakeChunkText(isLetter, p);
    TakeChunkSplit(isLetter, p);
    assert p.log + [] == p.log;
    assert Act(isLetter, p, TakeChunk) == Move(isLetter, p, TakeChunk);
  }

  lemma EndOfTextSplit(isLetter: Rune -> bool, p: Pipe)
    requires SplitInv(p) && Enabled(p, EndOfText)
    ensures SplitInv(Move(isLetter, p, EndOfText))
  {
    hide Settled;
    var p' := Move(isLetter, p, EndOfText);
    FlushTiles(p.splitter, p.fed);
    assert Ahead(p') == Ahead(p) + p'.found;
    if !p.tts.TtsEnded? {
      TilesConcat(Ahead(p), p'.found, p.fed, p.textPos, p.splitter.base, p'.splitter.base);
    }
  }

  lemma EndOfTextKeeps(isLetter: Rune -> bool, p: Pipe)
    requires PipeInv(p) && Enabled(p, EndOfText)
    ensures PipeInv(Act(isLetter, p, EndOfText))
  {
    hide Settled;
    hide Coherent;
    hide Flush;
    EndOfTextSplit(isLetter, p);
    assert p.log + [] == p.log;
    assert Act(isLetter, p, EndOfText) == Move(isLetter, p, EndOfText);
  }

  lemma GiveSentenceKeeps(isLetter: Rune -> bool, p: Pipe)
    requires PipeInv(p) && Enabled(p, GiveSentence)
    ensures PipeInv(Act(isLetter, p, GiveSentence))
  {
    hide Settled;
    hide Coherent;
    hide Holds;
    hide OnRunes;
    var p' := Act(isLetter, p, GiveSentence);
    assert p'.log == p.log;
    assert Ahead(p') == Ahead(p);
  }

  lemma CloseSentencesKeeps(isLetter: Rune -> bool, p: Pipe)
    requires PipeInv(p) && Enabled(p, CloseSentences)
    ensures PipeInv(Act(isLetter, p, CloseSentences))
  {
    hide Settled;
    hide Coherent;
    hide Holds;
    hide OnRunes;
    var p' := Act(isLetter, p, CloseSentences);
    assert p'.log == p.log;
    assert Ahead(p') == Ahead(p);
  }

  // ---- TTS stage ------------------------------------------------------------------------------------------------

  // A text-only response drops the sentence.
  lemma DropKeeps(p: Pipe, p': Pipe)
    requires SplitInv(p) && p.tts.Waiting? && p.sentences != []
    requires p' == p.(sentences := p.sentences[1..], textPos := p.sentences[0].end)
    ensures SplitInv(p')
  {
    hide Settled;
    hide Holds;
    hide OnRunes;
    assert Ahead(p)[0] == p.sentences[0];
    assert Ahead(p') == Ahead(p)[1..];
  }

  lemma TakeSentenceKeeps(isLetter: Rune -> bool, p: Pipe)
    requires PipeInv(p) && Enabled(p, TakeSentence)
    ensures PipeInv(Act(isLetter, p, TakeSentence))
  {
    hide Settled;
    hide Coherent;
    hide Blank;
    hide SplitInv;
    hide TextInv;
    hide TextIn;
    hide SegmentsIn;
    var p' := Act(isLetter, p, TakeSentence);
    assert p'.log == p.log;
    SameText(p, p');
    TakenAhead(p, p');
  }

  lemma SameText(p: Pipe, p': Pipe)
    requires TextInv(p) && p'.log == p.log && p'.fed == p.fed && p'.chunks == p.chunks && p'.llm == p.llm
    requires p'.split == p.split && p'.stopped == p.stopped
    ensures TextInv(p')
  {
    hide TextIn;
  }

  lemma TakenAhead(p: Pipe, p': Pipe)
    requires SplitInv(p) && Enabled(p, TakeSentence)
    requires p'.(log := p.log) == Taken(p.(sentences := p.sentences[1..]), p.sentences[0])
    ensures SplitInv(p')
  {
    hide SplitInv;
    hide Blank;
    if p.sender.textOnly {
      DropKeeps(p, p'.(log := p.log));
      SplitFrame(p'.(log := p.log), p');
    } else {
      assert Ahead(p') == Ahead(p);
      SplitFrame(p, p');
    }
  }

  // What the TTS stage is busy with is text the actor has been sent.
  lemma CurrentIsSent(p: Pipe)
    requires PipeInv(p) && Current(p.tts) != []
    ensures Spoke(p.log)
    ensures p.textPos == p.tts.sentence.start < p.tts.sentence.end <= |p.fed| <= |TextIn(p.log)|
    ensures Tiles(Ahead(p)[1..], p.fed, p.tts.sentence.end, p.splitter.base)
  {
    hide Settled;
    hide Coherent;
    assert Ahead(p)[0] == p.tts.sentence;
    if !Spoke(p.log) { TextIsSpoken(p.log); }
  }

  predicate ByTheWay(e: PipeEvent) {
    e.PipeTtsStart? || e.PipeAlignment? || e.PipeError?
  }

  // A log that has grown by at most one remark.
  ghost predicate Remarked(p: Pipe, log: seq<PipeEvent>) {
    log == p.log || exists e :: MayRemark(p, e) && log == p.log + [e]
  }

  // Alignment is only told of text that is being spoken.
  ghost predicate MayRemark(p: Pipe, e: PipeEvent) {
    ByTheWay(e) && e.gen == p.sender.gen
    && (e.PipeAlignment? ==> !p.sender.textOnly && Spoke(p.log) && !TtsOver(p.log))
  }

  lemma RemarkSent(p: Pipe, log: seq<PipeEvent>)
    requires Remarked(p, log) && Coherent(p.log, p.sender, !p.stopped)
    ensures TextIn(log) == TextIn(p.log) && SegmentsIn(log) == SegmentsIn(p.log) && AudioIn(log) == AudioIn(p.log)
    ensures LlmOver(log) == LlmOver(p.log) && TtsOver(log) == TtsOver(p.log)
    ensures Coherent(log, p.sender, !p.stopped)
  {
    hide Coherent;
    if log != p.log {
      var e :| MayRemark(p, e) && log == p.log + [e];
      NeutralSnoc(p.log, e);
      CoherentSnoc(p.log, e, p.sender, !p.stopped);
    }
  }

  // The TTS stage moves on without a sentence done.
  lemma SynthMoves(p: Pipe, p': Pipe)
    requires PipeInv(p) && SameAhead(p, p') && Remarked(p, p'.log)
    requires p' == p.(tts := p'.tts, started := p'.started, log := p'.log)
    requires !p.sender.textOnly && !p.tts.TtsEnded? && (p'.tts.TtsEnded? || Pending(p'.tts) == Pending(p.tts))
    ensures PipeInv(p')
  {
    hide Settled;
    hide Coherent;
    hide SplitInv;
    hide TextIn;
    hide SegmentsIn;
    hide SameAhead;
    SplitFrame(p, p');
    RemarkSent(p, p'.log);
  }

  predicate IsSynth(a: Action) {
    a.Announce? || a.SynthAlignment? || a.SynthEnd? || a.SynthFail?
  }

  lemma SynthRemarks(p: Pipe, a: Action)
    requires PipeInv(p) && Enabled(p, a) && IsSynth(a)
    ensures Remarked(p, p.log + Sent(p, a))
  {
    hide Coherent;
    hide SplitInv;
    hide TextInv;
    hide Spoke;
    var es := Sent(p, a);
    if es == [] {
      assert p.log + es == p.log;
    } else {
      if a.SynthAlignment? { CurrentIsSent(p); }
      assert es == [es[0]] && MayRemark(p, es[0]);
    }
  }

  lemma SynthStaysAhead(isLetter: Rune -> bool, p: Pipe, a: Action)
    requires Enabled(p, a) && WellFormed(p.splitter) && IsSynth(a)
    ensures SameAhead(p, Act(isLetter, p, a))
  {
    var p' := Act(isLetter, p, a);
    if a.SynthFail? {
      assert Ahead(p') == Ahead(p)[1..];
    } else {
      assert Ahead(p') == Ahead(p);
    }
  }

  lemma SynthKeeps(isLetter: Rune -> bool, p: Pipe, a: Action)
    requires PipeInv(p) && Enabled(p, a) && IsSynth(a)
    ensures PipeInv(Act(isLetter, p, a))
  {
    hide Coherent;
    hide SplitInv;
    hide TextInv;
    hide Sent;
    hide SameAhead;
    hide Remarked;
    SynthRemarks(p, a);
    SynthStaysAhead(isLetter, p, a);
    SynthMoves(p, Act(isLetter, p, a));
  }

  lemma SynthAudioKeeps(isLetter: Rune -> bool, p: Pipe, pcm: Bytes)
    requires PipeInv(p) && Enabled(p, SynthAudio(pcm))
    ensures PipeInv(Act(isLetter, p, SynthAudio(pcm)))
  {
    hide Settled;
    hide Coherent;
    hide SplitInv;
    hide TextIn;
    hide SegmentsIn;
    CurrentIsSent(p);
    var p' := Act(isLetter, p, SynthAudio(pcm));
    var e := PipeAudioDelta(p.sender.gen, p.sender.resp, WholeSamples(pcm));
    AudioSnoc(p.log, e);
    CoherentSnoc(p.log, e, p.sender, !p.stopped);
    assert Ahead(p') == Ahead(p);
    SplitFrame(p, p');
  }

  lemma AudioSnoc(log: seq<PipeEvent>, e: PipeEvent)
    requires e.PipeAudioDelta?
    ensures TextIn(log + [e]) == TextIn(log) && AudioIn(log + [e]) == AudioIn(log) + |e.pcm|
    ensures SegmentsIn(log + [e]) == SegmentsIn(log) && Spoke(log + [e]) == Spoke(log)
    ensures LlmOver(log + [e]) == LlmOver(log) && TtsOver(log + [e]) == TtsOver(log)
  {
    Snoc(log, e);
  }

  // fed is what the splitter has seen of the text the actor was sent.
  lemma FedIsSettled(p: Pipe, end: nat)
    requires TextInv(p) && !p.stopped && EndsWell(p, end)
    ensures Settled(TextIn(p.log), end) || (p.llm.LlmEnded? && end == |TextIn(p.log)|)
  {
    hide Settled;
    if Settled(p.fed, end) {
      var rest := Concat(p.chunks) + InHand(p.llm);
      assert p.fed + rest == TextIn(p.log);
      SettledExtends(p.fed, rest, end);
    } else {
      assert p.fed + [] + [] == p.fed;
    }
  }

  lemma ReportedSplit(p: Pipe, p': Pipe)
    requires SplitInv(p) && p.tts.Reporting?
    requires p' == p.(tts := Waiting, textPos := p.tts.sentence.end, audioPos := p'.audioPos, log := p'.log)
    ensures SplitInv(p')
  {
    hide Settled;
    hide Holds;
    hide OnRunes;
    assert Ahead(p)[0] == p.tts.sentence;
    assert Ahead(p') == Ahead(p)[1..];
  }

  lemma ReportedTts(p: Pipe, p': Pipe)
    requires PipeInv(p) && p.tts.Reporting? && (!p.stopped ==> EndsWell(p, p.tts.sentence.end))
    requires p' == p.(tts := Waiting, textPos := p.tts.sentence.end, audioPos := p.audioPos + p.tts.total,
                      log := p.log + [PipeSegment(p.sender.gen, SegmentOf(p))])
    ensures TextInv(p') && TtsInv(p') && Coherent(p'.log, p.sender, !p.stopped)
  {
    hide Settled;
    hide Coherent;
    hide SplitInv;
    hide TextIn;
    var e := PipeSegment(p.sender.gen, SegmentOf(p));
    CurrentIsSent(p);
    SegmentSnoc(p.log, e);
    if !p.stopped {
      FedIsSettled(p, p.tts.sentence.end);
    }
    CoherentSnoc(p.log, e, p.sender, !p.stopped);
  }

  lemma SegmentSnoc(log: seq<PipeEvent>, e: PipeEvent)
    requires e.PipeSegment?
    ensures TextIn(log + [e]) == TextIn(log) && AudioIn(log + [e]) == AudioIn(log)
    ensures SegmentsIn(log + [e]) == SegmentsIn(log) + [e.segment] && Spoke(log + [e]) == Spoke(log)
    ensures LlmOver(log + [e]) == LlmOver(log) && TtsOver(log + [e]) == TtsOver(log)
  {
    Snoc(log, e);
  }

  lemma ReportKeeps(isLetter: Rune -> bool, p: Pipe)
    requires PipeInv(p) && Enabled(p, Action.Report)
    ensures PipeInv(Act(isLetter, p, Action.Report))
  {
    hide Settled;
    hide Coherent;
    hide TextInv;
    hide TtsInv;
    var p' := Act(isLetter, p, Action.Report);
    assert Ahead(p)[0] == p.tts.sentence;
    ReportedSplit(p, p');
    ReportedTts(p, p');
  }

  lemma AllCovered(p: Pipe)
    requires PipeInv(p) && Enabled(p, EndOfSentences) && !p.stopped
    ensures p.llm.LlmEnded? && p.textPos == |TextIn(p.log)|
  {
    hide Settled;
    hide Coherent;
    assert Ahead(p) == [];
    assert OnItsWay(p) == p.fed;
  }

  lemma EndOfSentencesKeeps(isLetter: Rune -> bool, p: Pipe)
    requires PipeInv(p) && Enabled(p, EndOfSentences)
    ensures PipeInv(Act(isLetter, p, EndOfSentences))
  {
    hide Coherent;
    hide SplitInv;
    hide TextIn;
    hide SegmentsIn;
    var p' := Act(isLetter, p, EndOfSentences);
    if !p.stopped { AllCovered(p); }
    assert Ahead(p') == Ahead(p);
    SplitFrame(p, p');
    if p.sender.textOnly {
      assert p'.log == p.log;
    } else {
      DoneSent(p, PipeTtsDone(p.sender.gen));
    }
  }

  lemma DoneSent(p: Pipe, e: PipeEvent)
    requires TtsInv(p) && Coherent(p.log, p.sender, !p.stopped)
    requires e == PipeTtsDone(p.sender.gen) && !p.sender.textOnly && p.tts.Waiting?
    requires !p.stopped ==> p.textPos == |TextIn(p.log)|
    ensures TextIn(p.log + [e]) == TextIn(p.log) && SegmentsIn(p.log + [e]) == SegmentsIn(p.log)
    ensures LlmOver(p.log + [e]) == LlmOver(p.log)
    ensures Coherent(p.log + [e], p.sender, !p.stopped)
  {
    hide Coherent;
    hide TextIn;
    hide SegmentsIn;
    NeutralSnoc(p.log, e);
    CoherentSnoc(p.log, e, p.sender, !p.stopped);
  }

  lemma StopKeeps(isLetter: Rune -> bool, p: Pipe, a: Action)
    requires PipeInv(p) && Enabled(p, a) && IsStop(a)
    ensures PipeInv(Act(isLetter, p, a))
  {
    hide Settled;
    hide Coherent;
    hide SplitInv;
    hide TextIn;
    hide SegmentsIn;
    hide OnItsWay;
    var p' := Act(isLetter, p, a);
    assert p'.log == p.log;
    if !p.stopped { CoherentWeaken(p.log, p.sender); }
    StoppedSplit(p, p');
    StoppedText(p, p');
  }

  lemma StoppedText(p: Pipe, p': Pipe)
    requires p'.fed == p.fed && p'.chunks == p.chunks && (p'.llm == p.llm || p'.llm.LlmEnded?)
    ensures OnItsWay(p') <= OnItsWay(p) && (p'.llm == p.llm ==> OnItsWay(p') == OnItsWay(p))
  {
  }

  lemma StoppedSplit(p: Pipe, p': Pipe)
    requires SplitInv(p) && p'.stopped
    requires p' == p.(llm := p'.llm, split := p'.split, tts := p'.tts, stopped := true, log := p'.log)
    requires (p'.split == p.split || p'.split.SplitEnded?) && (p'.tts == p.tts || p'.tts.TtsEnded?)
    ensures SplitInv(p')
  {
    hide Settled;
    hide Tiles;
    hide Holds;
    hide OnRunes;
    if p'.tts == p.tts { assert Ahead(p') == Ahead(p); }
  }

  // Whatever the stages do, in whatever order, the pipeline's invariant holds.
  lemma ActKeeps(isLetter: Rune -> bool, p: Pipe, a: Action)
    requires PipeInv(p) && Enabled(p, a)
    ensures PipeInv(Act(isLetter, p, a))
    ensures Act(isLetter, p, a).sender == p.sender
    ensures Act(isLetter, p, a).stopped == (p.stopped || IsStop(a))
    ensures forall i :: 0 <= i < |Sent(p, a)| ==> Sent(p, a)[i].gen == p.sender.gen
  {
    hide PipeInv;
    match a
    case LlmText(delta) => LlmTextKeeps(isLetter, p, delta);
    case LlmCall(_) => LlmOtherKeeps(isLetter, p, a);
    case LlmFinish(_) => LlmOtherKeeps(isLetter, p, a);
    case LlmFail(_) => LlmOtherKeeps(isLetter, p, a);
    case HandChunk => HandChunkKeeps(isLetter, p);
    case TakeChunk => TakeChunkKeeps(isLetter, p);
    case GiveSentence => GiveSentenceKeeps(isLetter, p);
    case EndOfText => EndOfTextKeeps(isLetter, p);
    case CloseSentences => CloseSentencesKeeps(isLetter, p);
    case TakeSentence => TakeSentenceKeeps(isLetter, p);
    case Announce => SynthKeeps(isLetter, p, a);
    case SynthAudio(pcm) => SynthAudioKeeps(isLetter, p, pcm);
    case SynthAlignment(_) => SynthKeeps(isLetter, p, a);
    case SynthEnd => SynthKeeps(isLetter, p, a);
    case SynthFail(_) => SynthKeeps(isLetter, p, a);
    case Report => ReportKeeps(isLetter, p);
    case EndOfSentences => EndOfSentencesKeeps(isLetter, p);
    case StopLlm => StopKeeps(isLetter, p, a);
    case StopSplit => StopKeeps(isLetter, p, a);
    case StopTts => StopKeeps(isLetter, p, a);
  }
}
