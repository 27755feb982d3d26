// What a pipeline sends the actor is what its providers gave it, over any schedule of
// its stages (internal/session/pipeline.go:62-259).
module ProviderRuns {
  import opened Audio
  import opened Utf8
  import opened Conversations
  import opened Events
  import opened Sentences
  import opened PipeLog
  import opened Pipelines

  // ---- runs of a pipeline ------------------------------------------------------------------------------------

  ghost predicate MayAct(isLetter: Rune -> bool, p: Pipe, actions: seq<Action>)
    requires WellFormed(p.splitter)
    decreases |actions|
  {
    actions == []
    || (Enabled(p, actions[0]) && (StaysWellFormed(isLetter, p, actions[0]);
                                   MayAct(isLetter, Act(isLetter, p, actions[0]), actions[1..])))
  }

  ghost function ActAll(isLetter: Rune -> bool, p: Pipe, actions: seq<Action>): Pipe
    requires WellFormed(p.splitter) && MayAct(isLetter, p, actions)
    decreases |actions|
  {
    if actions == [] then p
    else
      StaysWellFormed(isLetter, p, actions[0]);
      ActAll(isLetter, Act(isLetter, p, actions[0]), actions[1..])
  }

  lemma StaysWellFormed(isLetter: Rune -> bool, p: Pipe, a: Action)
    requires WellFormed(p.splitter) && Enabled(p, a)
    ensures WellFormed(Act(isLetter, p, a).splitter)
  {
  }

  // ---- what the providers give ---------------------------------------------------------------------------------

  // Only whole samples are taken: at most the last byte of a chunk is left out.
  lemma WholeSamplesAreWhole(pcm: Bytes)
    ensures WholeSamples(pcm) <= pcm && |WholeSamples(pcm)| % 2 == 0 && |pcm| - 1 <= |WholeSamples(pcm)|
  {
  }

  // All that one action brings: text, calls, an end, audio, alignment, a failure.
  datatype Given = Given(
    text: Text,
    calls: seq<ToolCall>,
    finish: seq<Finish>,
    pcm: Bytes,
    timings: seq<CharTiming>,
    failed: seq<Stage>)

  const NOTHING: Given := Given([], [], [], [], [], [])

  function GivenBy(a: Action): Given {
    match a
    case LlmText(delta) => NOTHING.(text := delta)
    case LlmCall(call) => NOTHING.(calls := [call])
    case LlmFinish(finish) => NOTHING.(finish := [finish])
    case LlmFail(reported) => NOTHING.(failed := if reported then [LlmStage] else [])
    case SynthAudio(pcm) => NOTHING.(pcm := WholeSamples(pcm))
    case SynthAlignment(timings) => NOTHING.(timings := timings)
    case SynthFail(reported) => NOTHING.(failed := if reported then [TtsStage] else [])
    case _ => NOTHING
  }

  function SaidBy(ev: PipeEvent): Given {
    match ev
    case PipeTextDelta(_, _, delta) => NOTHING.(text := delta)
    case PipeTranscriptDelta(_, _, delta) => NOTHING.(text := delta)
    case PipeAudioDelta(_, _, pcm) => NOTHING.(pcm := pcm)
    case PipeToolCall(_, call) => NOTHING.(calls := [call])
    case PipeLlmDone(_, finish) => NOTHING.(finish := [finish])
    case PipeAlignment(_, timings) => NOTHING.(timings := timings)
    case PipeError(_, stage) => NOTHING.(failed := [stage])
    case _ => NOTHING
  }

  function Plus(a: Given, b: Given): Given {
    Given(a.text + b.text, a.calls + b.calls, a.finish + b.finish, a.pcm + b.pcm, a.timings + b.timings,
          a.failed + b.failed)
  }

  function AllGiven(actions: seq<Action>): Given {
    if actions == [] then NOTHING else Plus(GivenBy(actions[0]), AllGiven(actions[1..]))
  }

  function AllSaid(log: seq<PipeEvent>): Given {
    if log == [] then NOTHING else Plus(AllSaid(log[..|log| - 1]), SaidBy(log[|log| - 1]))
  }

  lemma PlusNothing(a: Given)
    ensures Plus(a, NOTHING) == a && Plus(NOTHING, a) == a
  {
  }

  lemma PlusAssociates(a: Given, b: Given, c: Given)
    ensures Plus(Plus(a, b), c) == Plus(a, Plus(b, c))
  {
  }

  lemma SentIsGiven(p: Pipe, a: Action)
    requires Enabled(p, a)
    ensures |Sent(p, a)| <= 1
    ensures GivenBy(a) == if Sent(p, a) == [] then NOTHING else SaidBy(Sent(p, a)[0])
  {
    hide WholeSamples;
  }

  lemma SaidSnoc(log: seq<PipeEvent>, e: PipeEvent)
    ensures AllSaid(log + [e]) == Plus(AllSaid(log), SaidBy(e))
  {
    assert (log + [e])[..|log|] == log;
  }

  // One action says what it was given, no more and no less.
  lemma ActSays(isLetter: Rune -> bool, p: Pipe, a: Action)
    requires WellFormed(p.splitter) && Enabled(p, a)
    ensures AllSaid(Act(isLetter, p, a).log) == Plus(AllSaid(p.log), GivenBy(a))
  {
    hide Move;
    hide Sent;
    hide Plus;
    hide GivenBy;
    hide SaidBy;
    hide AllSaid;
    var es := Sent(p, a);
    SentIsGiven(p, a);
    if es == [] {
      assert p.log + es == p.log;
      PlusNothing(AllSaid(p.log));
    } else {
      assert es == [es[0]];
      SaidSnoc(p.log, es[0]);
    }
  }

  // Over any schedule, what the pipeline has sent the actor is, in order, exactly what
  // its providers have given: every text delta, call and alignment, every whole sample,
  // how the LLM finished, and every failure that is one.
  lemma {:induction false} NothingIsChanged(isLetter: Rune -> bool, p: Pipe, actions: seq<Action>)
    requires WellFormed(p.splitter) && MayAct(isLetter, p, actions)
    ensures AllSaid(ActAll(isLetter, p, actions).log) == Plus(AllSaid(p.log), AllGiven(actions))
    decreases |actions|
  {
    hide Act;
    hide Plus;
    hide Enabled;
    if actions == [] {
      PlusNothing(AllSaid(p.log));
    } else {
      StaysWellFormed(isLetter, p, actions[0]);
      var p1 := Act(isLetter, p, actions[0]);
      ActSays(isLetter, p, actions[0]);
      NothingIsChanged(isLetter, p1, actions[1..]);
      PlusAssociates(AllSaid(p.log), GivenBy(actions[0]), AllGiven(actions[1..]));
    }
  }

  // The log as the actor's progress reads it.
  lemma {:induction false} SaidIsLogged(log: seq<PipeEvent>)
    ensures var said := AllSaid(log);
            && said.text == TextIn(log) && |said.pcm| == AudioIn(log) && said.timings == TimingsIn(log)
            && FinishIn(log) == (if said.finish == [] then None else Some(said.finish[|said.finish| - 1]))
  {
    if log != [] {
      var front, e := log[..|log| - 1], log[|log| - 1];
      SaidIsLogged(front);
      OneIsLogged(AllSaid(front), e);
    }
  }

  lemma OneIsLogged(said: Given, e: PipeEvent)
    ensures var said' := Plus(said, SaidBy(e));
            && said'.text == said.text + TextOf(e) && |said'.pcm| == |said.pcm| + BytesOf(e)
            && said'.timings == said.timings + TimingsOf(e)
            && said'.finish == (if e.PipeLlmDone? then said.finish + [e.finish] else said.finish)
  {
  }

  // ---- what is synthesized ----------------------------------------------------------------------------------------

  // A sentence is spoken unless the response is text only or there is nothing in it to
  // say; the client is told that speech begins with the first that is.
  lemma SentenceTaken(isLetter: Rune -> bool, p: Pipe)
    requires WellFormed(p.splitter) && Enabled(p, TakeSentence)
    ensures var p' := Act(isLetter, p, TakeSentence);
            var sn := p.sentences[0];
            && p'.sentences == p.sentences[1..] && p'.log == p.log
            && (p'.tts.Synthesizing? <==> !p.sender.textOnly && !Blank(sn.text) && p.started)
            && (p'.tts.Announcing? <==> !p.sender.textOnly && !Blank(sn.text) && !p.started)
            && (p'.tts.Reporting? <==> !p.sender.textOnly && Blank(sn.text))
            && (p'.tts.Waiting? <==> p.sender.textOnly)
            && (!p.sender.textOnly ==> p'.tts.sentence == sn)
            && (p'.tts.Synthesizing? || p'.tts.Reporting? ==> p'.tts.total == 0)
  {
  }

  // Whether the start of speech has been told.
  predicate Begun(log: seq<PipeEvent>) {
    log != [] && (Begun(log[..|log| - 1]) || log[|log| - 1].PipeTtsStart?)
  }

  // Speech is told to begin once, and before any audio or alignment.
  ghost predicate BeginsOnce(log: seq<PipeEvent>) {
    log == [] ||
    var front, e := log[..|log| - 1], log[|log| - 1];
    && BeginsOnce(front)
    && (e.PipeTtsStart? ==> !Begun(front))
    && (e.PipeAudioDelta? || e.PipeAlignment? ==> Begun(front))
  }

  ghost predicate StartInv(p: Pipe) {
    && BeginsOnce(p.log) && (p.started <==> Begun(p.log))
    && (p.tts.Announcing? ==> !p.started) && (p.tts.Synthesizing? ==> p.started)
  }

  lemma ActBegins(isLetter: Rune -> bool, p: Pipe, a: Action)
    requires WellFormed(p.splitter) && Enabled(p, a) && StartInv(p)
    ensures StartInv(Act(isLetter, p, a))
  {
    hide WholeSamples;
    hide Push;
    hide Flush;
    hide Blank;
    hide Begun;
    hide BeginsOnce;
    var es := Sent(p, a);
    if es == [] {
      assert p.log + es == p.log;
    } else {
      assert es == [es[0]];
      BeginsSnoc(p.log, es[0]);
    }
  }

  lemma BeginsSnoc(log: seq<PipeEvent>, e: PipeEvent)
    ensures Begun(log + [e]) <==> Begun(log) || e.PipeTtsStart?
    ensures BeginsOnce(log + [e]) <==>
            && BeginsOnce(log)
            && (e.PipeTtsStart? ==> !Begun(log))
            && (e.PipeAudioDelta? || e.PipeAlignment? ==> Begun(log))
  {
    assert (log + [e])[..|log|] == log;
  }

  lemma {:induction false} SpeechBeginsOnce(isLetter: Rune -> bool, p: Pipe, actions: seq<Action>)
    requires WellFormed(p.splitter) && MayAct(isLetter, p, actions) && StartInv(p)
    ensures StartInv(ActAll(isLetter, p, actions))
    decreases |actions|
  {
    hide Act;
    hide StartInv;
    hide Enabled;
    if actions != [] {
      StaysWellFormed(isLetter, p, actions[0]);
      ActBegins(isLetter, p, actions[0]);
      SpeechBeginsOnce(isLetter, Act(isLetter, p, actions[0]), actions[1..]);
    }
  }

  // ---- no stage is ever stuck -------------------------------------------------------------------------------------

  predicate AllEnded(p: Pipe) {
    p.llm.LlmEnded? && p.split.SplitEnded? && p.tts.TtsEnded?
  }

  // A next step of some stage towards the end of the response.
  function Onward(p: Pipe): Action
    requires !AllEnded(p)
    ensures Enabled(p, Onward(p)) && !IsStop(Onward(p))
  {
    if p.llm.Handing? then HandChunk
    else if p.llm.Reading? then LlmFinish(FinishStop)
    else if !p.split.SplitEnded? && p.found != [] then GiveSentence
    else if p.split.Flushed? then CloseSentences
    else if p.split.Splitting? then (if p.chunks != [] then TakeChunk else EndOfText)
    else match p.tts
      case Announcing(_) => Announce
      case Synthesizing(_, _) => SynthEnd
      case Reporting(_, _) => Report
      case _ => if p.sentences != [] then TakeSentence else EndOfSentences
  }

  function LlmSteps(l: LlmAt): nat {
    match l case Handing(_) => 2 case Reading => 1 case LlmEnded => 0
  }

  function SplitSteps(s: SplitAt): nat {
    match s case Splitting => 2 case Flushed => 1 case SplitEnded => 0
  }

  function TtsSteps(t: TtsAt): nat {
    match t
    case Announcing(_) => 4
    case Synthesizing(_, _) => 3
    case Reporting(_, _) => 2
    case Waiting => 1
    case TtsEnded => 0
  }

  predicate Closer(p': Pipe, p: Pipe) {
    LlmSteps(p'.llm) < LlmSteps(p.llm) || (LlmSteps(p'.llm) == LlmSteps(p.llm) &&
    (|p'.chunks| < |p.chunks| || (|p'.chunks| == |p.chunks| &&
    (SplitSteps(p'.split) < SplitSteps(p.split) || (SplitSteps(p'.split) == SplitSteps(p.split) &&
    (|p'.found| < |p.found| || (|p'.found| == |p.found| &&
    (|p'.sentences| < |p.sentences| || (|p'.sentences| == |p.sentences| &&
    TtsSteps(p'.tts) < TtsSteps(p.tts))))))))))
  }

  lemma OnwardIsCloser(isLetter: Rune -> bool, p: Pipe)
    requires WellFormed(p.splitter) && !AllEnded(p)
    ensures Closer(Act(isLetter, p, Onward(p)), p)
  {
    hide Push;
    hide Flush;
    hide Blank;
    hide Sent;
  }

  // Wherever a pipeline is, it can go on, without being stopped, until all its stages
  // have ended; an LLM that has not ended then says that it is done, and so does a TTS
  // stage that has not ended, unless the response is text only.
  lemma {:induction false} CanAlwaysEnd(isLetter: Rune -> bool, p: Pipe) returns (actions: seq<Action>)
    requires WellFormed(p.splitter)
    ensures MayAct(isLetter, p, actions) && forall i :: 0 <= i < |actions| ==> !IsStop(actions[i])
    ensures var p' := ActAll(isLetter, p, actions);
            && AllEnded(p') && p'.stopped == p.stopped && p'.sender == p.sender
            && (LlmOver(p.log) || !p.llm.LlmEnded? ==> LlmOver(p'.log))
            && (TtsOver(p.log) || (!p.tts.TtsEnded? && !p.sender.textOnly) ==> TtsOver(p'.log))
    decreases LlmSteps(p.llm), |p.chunks|, SplitSteps(p.split), |p.found|, |p.sentences|, TtsSteps(p.tts)
  {
    hide MayAct;
    hide ActAll;
    hide Act;
    hide Onward;
    hide Enabled;
    hide LlmSteps;
    hide SplitSteps;
    hide TtsSteps;
    hide WellFormed;
    if AllEnded(p) {
      NoActions(isLetter, p);
      return [];
    }
    var a := Onward(p);
    StaysWellFormed(isLetter, p, a);
    OnwardTells(isLetter, p);
    OnwardIsCloser(isLetter, p);
    var p1 := Act(isLetter, p, a);
    var rest := CanAlwaysEnd(isLetter, p1);
    actions := [a] + rest;
    OneMore(isLetter, p, a, rest);
  }

  lemma NoActions(isLetter: Rune -> bool, p: Pipe)
    requires WellFormed(p.splitter)
    ensures MayAct(isLetter, p, []) && ActAll(isLetter, p, []) == p
  {
  }

  lemma OneMore(isLetter: Rune -> bool, p: Pipe, a: Action, rest: seq<Action>)
    requires WellFormed(p.splitter) && Enabled(p, a) && WellFormed(Act(isLetter, p, a).splitter)
    requires MayAct(isLetter, Act(isLetter, p, a), rest)
    ensures MayAct(isLetter, p, [a] + rest)
    ensures ActAll(isLetter, p, [a] + rest) == ActAll(isLetter, Act(isLetter, p, a), rest)
  {
    hide Act;
    hide Enabled;
    assert ([a] + rest)[1..] == rest;
  }

  // The step goes on, and tells the ends it makes.
  lemma OnwardTells(isLetter: Rune -> bool, p: Pipe)
    requires WellFormed(p.splitter) && !AllEnded(p)
    ensures var p' := Act(isLetter, p, Onward(p));
            && p'.stopped == p.stopped && p'.sender == p.sender
            && (LlmOver(p'.log) <==> LlmOver(p.log) || (!p.llm.LlmEnded? && p'.llm.LlmEnded?))
            && (TtsOver(p'.log) <==>
                TtsOver(p.log) || (!p.tts.TtsEnded? && p'.tts.TtsEnded? && !p.sender.textOnly))
  {
    hide Push;
    hide Flush;
    hide Blank;
    hide SegmentOf;
    var es := Sent(p, Onward(p));
    if es == [] {
      assert p.log + es == p.log;
    } else {
      Snoc(p.log, es[0]);
      assert es == [es[0]];
    }
  }
}
