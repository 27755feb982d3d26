// Truncating an item more than once through the session: exactly when a truncate
// slices out of range, and a run in which the second one does
// (internal/session/session.go:699-731).
module TruncateTwice {
  import opened Audio
  import opened Utf8
  import opened Conversations
  import opened Events
  import opened Grammar
  import opened Actor
  import opened ActorInvariants
  import opened PipeLog
  import opened PipeInvariants
  import opened Pipelines
  import opened Gateway
  import opened SessionRuns
  import opened Truncation
  import opened Retruncation
  import Sentences
  import Turns

  // ---- exactly when --------------------------------------------------------------------------------------

  // An item the client may truncate, as its response or earlier truncates left it.
  ghost predicate Trimmable(st: State, ref: ItemRef) {
    && ref in st.conv.index
    && var it := st.conv.index[ref];
       && ActorInvariants.Spoken(it) && it.view.ref == ref && Valid(it.view.text)
       && (it.alignment == [] ==> CutDown(it.view.text, it.segments, it.audioBytes))
  }

  // The cut falls inside a segment that has lost text to an earlier one.
  ghost predicate CutsLostText(it: Item, ms: int) {
    && it.alignment == [] && it.view.text != [] && 0 < MsToBytes(ms) < it.audioBytes
    && StraddlesLostText(it.segments, |it.view.text|, MsToBytes(ms))
  }

  // What a truncate makes of an item, if its slice is in bounds.
  function CutItem(it: Item, text: Text, ms: int): Item {
    var it1 := it.(view := it.view.(text := text));
    if 0 <= MsToBytes(ms) < it.audioBytes then
      it1.(audioBytes := MsToBytes(ms), view := it1.view.(audioMs := ms))
    else it1
  }

  lemma TrimsOrPanics(it: Item, ms: int)
    requires Valid(it.view.text) && (it.alignment == [] ==> CutDown(it.view.text, it.segments, it.audioBytes))
    requires 0 <= ms && MsToBytes(ms) <= it.audioBytes
    ensures var trim := TrimText(it.view.text, it.segments, it.alignment, MsToBytes(ms), it.audioBytes);
            && (trim.OutOfRange? <==> CutsLostText(it, ms))
            && (trim.Trimmed? ==>
                  var cut := CutItem(it, trim.text, ms);
                  Valid(trim.text) && (it.alignment == [] ==> CutDown(trim.text, it.segments, cut.audioBytes)))
  {
    hide CutDown;
    hide StraddlesLostText;
    var text, cut := it.view.text, MsToBytes(ms);
    if cut == it.audioBytes {
    } else if it.alignment == [] {
      NextTruncate(text, it.segments, cut, it.audioBytes);
      if TrimText(text, it.segments, [], cut, it.audioBytes).Trimmed? {
        CutDownIsValid(TrimText(text, it.segments, [], cut, it.audioBytes).text, it.segments, cut);
      }
    } else {
      assert Tiled([], 0, 0, 0, 0);
      TrimIsPrefix(text, [], it.alignment, cut, it.audioBytes);
    }
  }

  lemma CutDownIsValid(text: Text, segs: seq<Segment>, total: int)
    requires CutDown(text, segs, total)
    ensures Valid(text)
  {
  }

  predicate InReach(it: Item, contentIndex: int, ms: int) {
    contentIndex == 0 && 0 <= ms && MsToBytes(ms) <= it.audioBytes
  }

  // A truncate of an item that may be truncated: refused, out of range, or done.
  lemma TruncateUnfolds(st: State, ref: ItemRef, contentIndex: int, ms: int)
    requires ref in st.conv.index && ActorInvariants.Spoken(st.conv.index[ref])
    ensures var it := st.conv.index[ref];
            var st' := OnTruncateItem(st, ref, contentIndex, ms);
            var trim := TrimText(it.view.text, it.segments, it.alignment, MsToBytes(ms), it.audioBytes);
            if !InReach(it, contentIndex, ms) then st'.conv == st.conv && st'.panicked == st.panicked
            else if trim.OutOfRange? then st' == st.(panicked := true)
            else st'.conv == Update(st.conv, CutItem(it, trim.text, ms)) && st'.panicked == st.panicked
  {
    hide TrimText;
  }

  // A truncate, whatever its arguments, slices out of range if and only if its cut
  // falls inside a segment that has lost text; the item can be truncated again.
  lemma AnyTruncate(st: State, ref: ItemRef, contentIndex: int, ms: int)
    requires Trimmable(st, ref)
    ensures var st' := OnTruncateItem(st, ref, contentIndex, ms);
            && Trimmable(st', ref)
            && (st'.panicked <==> st.panicked || (contentIndex == 0 && CutsLostText(st.conv.index[ref], ms)))
  {
    hide TrimText;
    hide OnTruncateItem;
    hide CutDown;
    hide StraddlesLostText;
    var it := st.conv.index[ref];
    TruncateUnfolds(st, ref, contentIndex, ms);
    if InReach(it, contentIndex, ms) { TrimsOrPanics(it, ms); }
  }

  function Truncates(st: State, ref: ItemRef, cuts: seq<int>): State
    decreases |cuts|
  {
    if cuts == [] then st else Truncates(OnTruncateItem(st, ref, 0, cuts[0]), ref, cuts[1..])
  }

  lemma {:induction false} TruncatesKeep(st: State, ref: ItemRef, cuts: seq<int>)
    requires Trimmable(st, ref)
    ensures Trimmable(Truncates(st, ref, cuts), ref)
    decreases |cuts|
  {
    hide Trimmable;
    hide OnTruncateItem;
    if cuts != [] {
      AnyTruncate(st, ref, 0, cuts[0]);
      TruncatesKeep(OnTruncateItem(st, ref, 0, cuts[0]), ref, cuts[1..]);
    }
  }

  // After any truncates of an item, at any milliseconds, the next one slices past
  // the end of the text then held if and only if its cut falls inside a segment
  // that they cut short. Otherwise the client is told as usual.
  lemma NextTruncatePanics(st: State, ref: ItemRef, cuts: seq<int>, ms: int)
    requires Trimmable(st, ref) && !Truncates(st, ref, cuts).panicked
    ensures var st1 := Truncates(st, ref, cuts);
            && ref in st1.conv.index
            && (OnTruncateItem(st1, ref, 0, ms).panicked <==> CutsLostText(st1.conv.index[ref], ms))
  {
    hide OnTruncateItem;
    hide CutsLostText;
    TruncatesKeep(st, ref, cuts);
    AnyTruncate(Truncates(st, ref, cuts), ref, 0, ms);
  }

  // In a reachable session every item the client may truncate and has not is one
  // of these.
  lemma UncutIsTrimmable(s: System, isLetter: Rune -> bool, ref: ItemRef)
    requires Reachable(s, isLetter) && !s.over && ref in s.actor.conv.index
    requires var it := s.actor.conv.index[ref];
             ActorInvariants.Spoken(it) && Valid(it.view.text) && !WasTruncated(s.actor.trace, ref)
    ensures Trimmable(s.actor, ref)
  {
    hide PipesInv;
    hide RunInv;
    hide RuneAligned;
    hide TimerInv;
    hide ParseAll;
    ReachableIsSound(s, isLetter);
    var it := s.actor.conv.index[ref];
    assert Sound(it, true);
    FitsIsCutDown(it.view.text, it.segments, it.audioBytes);
  }

  // In any reachable session, whatever an item has gone through (truncates, and
  // more output behind them), a truncate slices out of range if and only if it
  // hears some of a segment that ends past the text held, as long as that text is
  // valid and the segments that end inside it end between its runes.
  lemma TruncateIsExact(s: System, isLetter: Rune -> bool, ref: ItemRef, ms: int)
    requires Reachable(s, isLetter) && ref in s.actor.conv.index && !s.actor.panicked
    requires var it := s.actor.conv.index[ref];
             Valid(it.view.text) && AlignedWithin(it.view.text, it.segments)
    ensures var it := s.actor.conv.index[ref];
            var cut := MsToBytes(ms);
            OnTruncateItem(s.actor, ref, 0, ms).panicked
            <==> ActorInvariants.Spoken(it) && it.alignment == [] && it.view.text != [] && 0 < cut < it.audioBytes
                 && HearsLostText(it.segments, |it.view.text|, cut)
  {
    hide SysInv;
    hide Reachable;
    hide TrimText;
    hide OnTruncateItem;
    hide HearsLostText;
    ReachableIsSound(s, isLetter);
    TilingHolds(s, ref);
    var it := s.actor.conv.index[ref];
    var tEnd: nat, aEnd: nat :| Tiled(it.segments, 0, 0, tEnd, aEnd);
    TrimExactly(it.view.text, it.segments, it.alignment, MsToBytes(ms), it.audioBytes, tEnd, aEnd);
    if ActorInvariants.Spoken(it) { TruncateUnfolds(s.actor, ref, 0, ms); } else { OthersRefused(s.actor, ref, ms); }
  }

  lemma TilingHolds(s: System, ref: ItemRef)
    requires SysInv(s) && ref in s.actor.conv.index
    ensures Tiling(s.actor.conv.index[ref])
  {
    hide ActorInv;
    hide PipesInv;
    hide RunInv;
    hide Sound;
  }

  lemma OthersRefused(st: State, ref: ItemRef, ms: int)
    requires ref in st.conv.index && !ActorInvariants.Spoken(st.conv.index[ref])
    ensures OnTruncateItem(st, ref, 0, ms).panicked == st.panicked
  {
    hide TrimText;
  }

  // ---- a run in which it happens ----------------------------------------------------------------------------

  // Five letters and a newline: a sentence.
  const WORD: Text := [0x61, 0x61, 0x61, 0x61, 0x61, 0x0A]

  // Ten milliseconds of silence.
  function Tone(): Bytes {
    seq(480, _ => 0)
  }

  lemma {:induction false} LettersPass(isLetter: Rune -> bool, more: Text, i: nat)
    requires i <= 5
    ensures Sentences.Scan(isLetter, WORD + more, i, 0) == Sentences.Found(6)
    decreases 5 - i
  {
    hide DecodeRune;
    var buf := WORD + more;
    assert buf[i] == WORD[i];
    Sentences.AsciiDecodes(buf[i..]);
    if i < 5 {
      LettersPass(isLetter, more, i + 1);
    }
  }

  lemma {:induction false} AsciiRunes(b: Text)
    requires forall i :: 0 <= i < |b| ==> b[i] < 0x80
    ensures |Runes(b)| == |b| == RuneCount(b) && (forall i :: 0 <= i < |b| ==> Runes(b)[i] == b[i])
    decreases |b|
  {
    hide DecodeRune;
    if b != [] {
      Sentences.AsciiDecodes(b);
      AsciiRunes(b[1..]);
    }
  }

  lemma {:induction false} AsciiEncodes(rs: seq<Rune>)
    requires forall i :: 0 <= i < |rs| ==> rs[i] < 0x80
    ensures |Encode(rs)| == |rs|
  {
    if rs != [] {
      AsciiEncodes(rs[1..]);
    }
  }

  lemma WordIsSentence(isLetter: Rune -> bool, base: nat, more: Text)
    ensures var s := Sentences.Splitter(WORD + more, base, 0);
            var (s', out) := Sentences.Split(isLetter, Sentences.Splitter(more, base + 6, 0));
            Sentences.Split(isLetter, s) == (s', [Sentences.Sentence(WORD, base, base + 6)] + out)
  {
    hide Sentences.Scan;
    hide RuneCount;
    var s := Sentences.Splitter(WORD + more, base, 0);
    LettersPass(isLetter, more, 0);
    AsciiRunes(WORD);
    assert s.buf[..6] == WORD && s.buf[6..] == more;
    assert Sentences.Take(s, 6) == Sentences.Sentence(WORD, base, base + 6);
    assert Sentences.AfterTake(s, 6) == Sentences.Splitter(more, base + 6, 0);
  }

  lemma TwoSentences(isLetter: Rune -> bool)
    ensures Sentences.Push(isLetter, Sentences.EMPTY, WORD + WORD)
         == (Sentences.Splitter([], 12, 0), [Sentences.Sentence(WORD, 0, 6), Sentences.Sentence(WORD, 6, 12)])
  {
    hide Sentences.Scan;
    assert [] + (WORD + WORD) == WORD + WORD && WORD + [] == WORD;
    WordIsSentence(isLetter, 0, WORD);
    WordIsSentence(isLetter, 6, []);
    assert Sentences.Scan(isLetter, [], 0, 0) == Sentences.More(0) by { NothingScans(isLetter); }
    assert [Sentences.Sentence(WORD, 0, 6)] + ([Sentences.Sentence(WORD, 6, 12)] + [])
        == [Sentences.Sentence(WORD, 0, 6), Sentences.Sentence(WORD, 6, 12)];
  }

  lemma NothingScans(isLetter: Rune -> bool)
    ensures Sentences.Scan(isLetter, [], 0, 0) == Sentences.More(0)
  {
  }

  lemma WordIsNotBlank()
    ensures !Blank(WORD)
  {
    Sentences.AsciiDecodes(WORD);
  }

  // ---- the stages -----------------------------------------------------------------------------------------------

  ghost predicate CanAct(isLetter: Rune -> bool, p: Pipe, actions: seq<Action>)
    decreases |actions|
  {
    actions == []
    || (&& Sentences.WellFormed(p.splitter) && Enabled(p, actions[0]) && !IsStop(actions[0])
        && CanAct(isLetter, Act(isLetter, p, actions[0]), actions[1..]))
  }

  ghost function Acts(isLetter: Rune -> bool, p: Pipe, actions: seq<Action>): Pipe
    requires CanAct(isLetter, p, actions)
    decreases |actions|
  {
    if actions == [] then p else Acts(isLetter, Act(isLetter, p, actions[0]), actions[1..])
  }

  function Stages(actions: seq<Action>): seq<Step> {
    seq(|actions|, i requires 0 <= i < |actions| => Stage(0, actions[i]))
  }

  // The only pipeline runs on its own; all it sends is queued.
  lemma {:induction false} StagesRun(s: System, isLetter: Rune -> bool, actions: seq<Action>, p': Pipe)
    requires |s.pipes| == 1 && CanAct(isLetter, s.pipes[0], actions) && Acts(isLetter, s.pipes[0], actions) == p'
    requires s.pipes[0].log == s.queue
    ensures MayRun(s, isLetter, Stages(actions))
    ensures Run(s, isLetter, Stages(actions)) == s.(pipes := [p'], queue := p'.log)
    decreases |actions|
  {
    hide Act;
    hide Enabled;
    hide Sent;
    if actions == [] {
      assert s.pipes == [p'];
    } else {
      var p1 := Act(isLetter, s.pipes[0], actions[0]);
      var s1 := Take(s, isLetter, Stage(0, actions[0]));
      ActLogs(isLetter, s.pipes[0], actions[0]);
      assert s1 == s.(pipes := [p1], queue := p1.log);
      StagesRun(s1, isLetter, actions[1..], p');
      assert Stages(actions)[1..] == Stages(actions[1..]);
    }
  }

  lemma ActFirst(isLetter: Rune -> bool, p: Pipe, a: Action, p1: Pipe, rest: seq<Action>)
    requires Sentences.WellFormed(p.splitter) && Enabled(p, a) && !IsStop(a) && Act(isLetter, p, a) == p1
    requires CanAct(isLetter, p1, rest)
    ensures CanAct(isLetter, p, [a] + rest) && Acts(isLetter, p, [a] + rest) == Acts(isLetter, p1, rest)
  {
    hide Act;
    hide Enabled;
    assert ([a] + rest)[1..] == rest;
  }

  function First(): Sentences.Sentence {
    Sentences.Sentence(WORD, 0, 6)
  }

  function Second(): Sentences.Sentence {
    Sentences.Sentence(WORD, 6, 12)
  }

  // The pipeline when both sentences are with the TTS stage, when the first has
  // been spoken, and when both have.
  function Split2(snd: Sender): Pipe {
    Pipe(snd, Reading, [], Splitting, WORD + WORD, Sentences.Splitter([], 12, 0), [], [First(), Second()],
         Waiting, false, 0, 0, false, [TextFact(snd, WORD + WORD)])
  }

  function Spoken1(snd: Sender): Pipe {
    Split2(snd).(sentences := [Second()], started := true, textPos := 6, audioPos := 480,
                 log := [TextFact(snd, WORD + WORD), PipeTtsStart(snd.gen), PipeAudioDelta(snd.gen, snd.resp, Tone()),
                         PipeSegment(snd.gen, Segment(0, 6, 0, 480))])
  }

  function Spoken2(snd: Sender): Pipe {
    Spoken1(snd).(sentences := [], textPos := 12, audioPos := 960,
                  log := Spoken1(snd).log + [PipeAudioDelta(snd.gen, snd.resp, Tone()),
                                             PipeSegment(snd.gen, Segment(6, 12, 480, 960))])
  }

  function Reads(): seq<Action> {
    [LlmText(WORD + WORD), HandChunk, TakeChunk, GiveSentence, GiveSentence]
  }

  function Speaks(): seq<Action> {
    [TakeSentence, Announce, SynthAudio(Tone()), SynthEnd, Action.Report]
  }

  function SpeaksOn(): seq<Action> {
    [TakeSentence, SynthAudio(Tone()), SynthEnd, Action.Report]
  }

  lemma ReadingPhase(isLetter: Rune -> bool, snd: Sender)
    requires !snd.textOnly
    ensures CanAct(isLetter, NewPipe(snd), Reads()) && Acts(isLetter, NewPipe(snd), Reads()) == Split2(snd)
  {
    hide Sentences.Push;
    TwoSentences(isLetter);
    var text := WORD + WORD;
    var p0 := NewPipe(snd);
    var p1 := p0.(llm := Handing(text), log := [TextFact(snd, text)]);
    var p2 := p1.(llm := Reading, chunks := [text]);
    var p3 := p2.(chunks := [], fed := text, splitter := Sentences.Splitter([], 12, 0), found := [First(), Second()]);
    var p4 := p3.(found := [Second()], sentences := [First()]);
    assert [] + text == text;
    ActFirst(isLetter, p4, GiveSentence, Split2(snd), []);
    ActFirst(isLetter, p3, GiveSentence, p4, [GiveSentence]);
    ActFirst(isLetter, p2, TakeChunk, p3, [GiveSentence] + [GiveSentence]);
    ActFirst(isLetter, p1, HandChunk, p2, [TakeChunk] + ([GiveSentence] + [GiveSentence]));
    ActFirst(isLetter, p0, LlmText(text), p1, [HandChunk] + ([TakeChunk] + ([GiveSentence] + [GiveSentence])));
    assert Reads() == [LlmText(text)] + ([HandChunk] + ([TakeChunk] + ([GiveSentence] + [GiveSentence])));
  }

  lemma SpeakingPhase(isLetter: Rune -> bool, snd: Sender)
    requires !snd.textOnly
    ensures CanAct(isLetter, Split2(snd), Speaks()) && Acts(isLetter, Split2(snd), Speaks()) == Spoken1(snd)
  {
    WordIsNotBlank();
    hide Blank;
    var p0 := Split2(snd);
    var p1 := p0.(sentences := [Second()], tts := Announcing(First()));
    var p2 := p1.(started := true, tts := Synthesizing(First(), 0), log := p0.log + [PipeTtsStart(snd.gen)]);
    var p3 := p2.(tts := Synthesizing(First(), 480), log := p2.log + [PipeAudioDelta(snd.gen, snd.resp, Tone())]);
    var p4 := p3.(tts := Reporting(First(), 480));
    assert WholeSamples(Tone()) == Tone();
    ActFirst(isLetter, p4, Action.Report, Spoken1(snd), []);
    ActFirst(isLetter, p3, SynthEnd, p4, [Action.Report]);
    ActFirst(isLetter, p2, SynthAudio(Tone()), p3, [SynthEnd] + [Action.Report]);
    ActFirst(isLetter, p1, Announce, p2, [SynthAudio(Tone())] + ([SynthEnd] + [Action.Report]));
    ActFirst(isLetter, p0, TakeSentence, p1, [Announce] + ([SynthAudio(Tone())] + ([SynthEnd] + [Action.Report])));
    assert Speaks() == [TakeSentence] + ([Announce] + ([SynthAudio(Tone())] + ([SynthEnd] + [Action.Report])));
  }

  lemma SpeakingOnPhase(isLetter: Rune -> bool, snd: Sender)
    requires !snd.textOnly
    ensures CanAct(isLetter, Spoken1(snd), SpeaksOn()) && Acts(isLetter, Spoken1(snd), SpeaksOn()) == Spoken2(snd)
  {
    WordIsNotBlank();
    hide Blank;
    var p0 := Spoken1(snd);
    var p1 := p0.(sentences := [], tts := Synthesizing(Second(), 0));
    var p2 := p1.(tts := Synthesizing(Second(), 480), log := p1.log + [PipeAudioDelta(snd.gen, snd.resp, Tone())]);
    var p3 := p2.(tts := Reporting(Second(), 480));
    assert WholeSamples(Tone()) == Tone();
    ActFirst(isLetter, p3, Action.Report, Spoken2(snd), []);
    ActFirst(isLetter, p2, SynthEnd, p3, [Action.Report]);
    ActFirst(isLetter, p1, SynthAudio(Tone()), p2, [SynthEnd] + [Action.Report]);
    ActFirst(isLetter, p0, TakeSentence, p1, [SynthAudio(Tone())] + ([SynthEnd] + [Action.Report]));
    assert SpeaksOn() == [TakeSentence] + ([SynthAudio(Tone())] + ([SynthEnd] + [Action.Report]));
  }

  // ---- the deliveries --------------------------------------------------------------------------------------------

  // A fact that neither ends a response nor aligns characters.
  predicate GoesIn(ev: PipeEvent) {
    IsText(ev) || ev.PipeAudioDelta? || ev.PipeTtsStart? || ev.PipeSegment?
  }

  // The response is running, its item has no alignment, and it was not truncated.
  ghost predicate Running1(st: State) {
    && IsRunning(st)
    && (st.active.value.item in st.conv.index ==> st.conv.index[st.active.value.item].alignment == [])
    && ParseAll(st.trace).Open? && !ParseAll(st.trace).run.truncated
  }

  // The session is open and its response running.
  ghost predicate Going(s: System) {
    SysInv(s) && !s.over && !s.closed && !s.actor.cancelled && !s.actor.panicked && Running1(s.actor)
  }

  lemma AlignmentStays(st: State, ev: PipeEvent)
    requires Running1(st) && Fresh(st, ev) && GoesIn(ev) && OnPipeEvent(st, ev).active.Some?
    ensures var st' := OnPipeEvent(st, ev);
            st'.active.value.item in st'.conv.index ==> st'.conv.index[st'.active.value.item].alignment == []
    ensures OnPipeEvent(st, ev).cancelled == st.cancelled && OnPipeEvent(st, ev).panicked == st.panicked
  {
    hide ParseAll;
  }

  lemma OneDelivery(s: System, isLetter: Rune -> bool)
    requires Going(s) && s.queue != [] && s.queue[0].gen == s.actor.activeGen && GoesIn(s.queue[0])
    ensures MayStep(s, Deliver) && Going(Take(s, isLetter, Deliver))
    ensures Delivered1(s, Take(s, isLetter, Deliver))
  {
    hide SysInv;
    hide OnPipeEvent;
    hide Good;
    hide ParseAll;
    hide Addressed;
    var ev := s.queue[0];
    DeliverKeeps(s, isLetter);
    FreshIsAddressed(s);
    ActorHolds(s);
    OnPipeEventKeeps(s.actor, ev);
    AlignmentStays(s.actor, ev);
  }

  // The fact at the head has been taken in.
  ghost predicate Delivered1(s: System, s': System)
    requires s.queue != []
  {
    && s'.queue == s.queue[1..] && s'.received == s.received + [s.queue[0]] && s'.actor.activeGen == s.actor.activeGen
    && s.actor.active.Some? && s'.actor.active.Some? && s'.actor.active.value.textOnly == s.actor.active.value.textOnly
  }

  function Deliveries(n: nat): seq<Step> {
    seq(n, _ => Deliver)
  }

  lemma {:induction false} DeliveriesRun(s: System, isLetter: Rune -> bool)
    requires Going(s) && s.actor.active.Some?
    requires forall i :: 0 <= i < |s.queue| ==> s.queue[i].gen == s.actor.activeGen && GoesIn(s.queue[i])
    ensures MayRun(s, isLetter, Deliveries(|s.queue|))
    ensures var s' := Run(s, isLetter, Deliveries(|s.queue|));
            && Going(s') && s'.received == s.received + s.queue && s'.queue == []
            && s'.actor.active.Some? && s'.actor.active.value.textOnly == s.actor.active.value.textOnly
    decreases |s.queue|
  {
    hide Going;
    hide GoesIn;
    hide Take;
    hide MayStep;
    if s.queue == [] {
      assert s.received + s.queue == s.received;
    } else {
      OneDelivery(s, isLetter);
      var s1 := Take(s, isLetter, Deliver);
      DeliveriesRun(s1, isLetter);
      assert Deliveries(|s.queue|)[1..] == Deliveries(|s1.queue|);
      assert (s.received + [s.queue[0]]) + s.queue[1..] == s.received + s.queue;
    }
  }

  // ---- the whole run ----------------------------------------------------------------------------------------------

  const MANUAL: Config := Config(Turns.TurnDetection(Turns.Manual, false, false, 0.0, 0, 0), false, false, [])
  const FINE: Io := Io(true, true)

  // The client asks for a response at once.
  lemma FirstResponse(isLetter: Rune -> bool)
    ensures var step := Handle(GotCommand(CreateResponse(NO_OVERRIDES), FINE));
            var s0 := NewSystem(MANUAL, 0);
            && MayStep(s0, step)
            && var s := Take(s0, isLetter, step);
               && s.pipes == [NewPipe(Sender(1, 1, false))] && s.queue == [] && s.received == []
               && !s.closed && !s.over && !s.actor.cancelled && !s.actor.panicked
               && s.actor.activeGen == 1 && Running1(s.actor) && s.actor.active.Some? && !s.actor.active.value.textOnly
  {
    hide MessagesOf;
    hide ParseAll;
    var st0 := NewSession(MANUAL, 0);
    assert st0.(turn := st0.turn) == st0;
    var e := Event.ResponseCreated(1, false);
    ParseSnoc([], e);
    CreatedEvent(0, 1, false);
    assert [] + [e] == [e];
    NothingParsed();
    var st := OnCommand(st0, CreateResponse(NO_OVERRIDES), FINE);
    assert st.trace == [e];
    assert st.launches[|st0.launches|..] == st.launches;
  }

  lemma NothingParsed()
    ensures ParseAll([]) == Idle(0)
  {
  }

  lemma NothingSaid()
    ensures TextIn([]) == [] && AudioIn([]) == 0 && SegmentsIn([]) == [] && !Spoke([])
  {
  }

  // What a log says that begins with text and the start of synthesis.
  lemma TextSays(snd: Sender, text: Text)
    ensures var log := [TextFact(snd, text), PipeTtsStart(snd.gen)];
            TextIn(log) == text && AudioIn(log) == 0 && Spoke(log) && SegmentsIn(log) == []
  {
    hide TextIn;
    hide AudioIn;
    hide SegmentsIn;
    hide Spoke;
    NothingSaid();
    var l1 := [TextFact(snd, text)];
    Snoc([], TextFact(snd, text));
    assert [] + l1 == l1;
    Snoc(l1, PipeTtsStart(snd.gen));
    assert l1 + [PipeTtsStart(snd.gen)] == [TextFact(snd, text), PipeTtsStart(snd.gen)];
    assert text + [] == text && [] + text == text;
  }

  // What one sentence adds to it: ten milliseconds of audio and its segment.
  lemma SentenceSays(log: seq<PipeEvent>, snd: Sender, seg: Segment)
    ensures var log' := log + [PipeAudioDelta(snd.gen, snd.resp, Tone())] + [PipeSegment(snd.gen, seg)];
            TextIn(log') == TextIn(log) && AudioIn(log') == AudioIn(log) + 480 && Spoke(log') == Spoke(log)
            && SegmentsIn(log') == SegmentsIn(log) + [seg]
  {
    hide TextIn;
    hide AudioIn;
    hide SegmentsIn;
    hide Spoke;
    var e := PipeAudioDelta(snd.gen, snd.resp, Tone());
    Snoc(log, e);
    Snoc(log + [e], PipeSegment(snd.gen, seg));
    assert TextIn(log) + [] == TextIn(log) && SegmentsIn(log) + [] == SegmentsIn(log);
  }

  // What the pipeline's log says.
  lemma LogSays(snd: Sender)
    ensures var log := Spoken2(snd).log;
            TextIn(log) == WORD + WORD && AudioIn(log) == 960 && Spoke(log)
            && SegmentsIn(log) == [Segment(0, 6, 0, 480), Segment(6, 12, 480, 960)]
  {
    hide TextIn;
    hide AudioIn;
    hide SegmentsIn;
    hide Spoke;
    hide Tone;
    var e := PipeAudioDelta(snd.gen, snd.resp, Tone());
    var l2 := [TextFact(snd, WORD + WORD), PipeTtsStart(snd.gen)];
    var l4 := l2 + [e] + [PipeSegment(snd.gen, Segment(0, 6, 0, 480))];
    TextSays(snd, WORD + WORD);
    SentenceSays(l2, snd, Segment(0, 6, 0, 480));
    SentenceSays(l4, snd, Segment(6, 12, 480, 960));
    assert Spoken2(snd).log == l4 + [e] + [PipeSegment(snd.gen, Segment(6, 12, 480, 960))];
    assert [] + [Segment(0, 6, 0, 480)] == [Segment(0, 6, 0, 480)];
  }

  // The item once all of it has been delivered.
  lemma ItemIsTrimmable(s: System)
    requires SysInv(s) && Running1(s.actor) && !s.closed && s.queue == [] && !s.actor.active.value.textOnly
    requires exists snd :: s.received == Spoken2(snd).log
    ensures var ref := s.actor.active.value.item;
            && Trimmable(s.actor, ref)
            && var it := s.actor.conv.index[ref];
               it.view.text == WORD + WORD && it.audioBytes == 960 && it.alignment == []
               && it.segments == [Segment(0, 6, 0, 480), Segment(6, 12, 480, 960)]
  {
    hide ParseAll;
    hide Fits;
    hide CutDown;
    var snd :| s.received == Spoken2(snd).log;
    LogSays(snd);
    ProgressHolds(s);
    ItemIsRecorded(s);
    ReceivedFits(s);
    WordsAreValid();
    FitsIsCutDown(TextIn(s.received), SegmentsIn(s.received), AudioIn(s.received));
  }

  lemma ItemIsRecorded(s: System)
    requires SysInv(s) && Running1(s.actor) && Progress(s.actor, s.received) && Spoke(s.received)
    requires !s.actor.active.value.textOnly
    ensures var ref := s.actor.active.value.item;
            && ref in s.actor.conv.index
            && var it := s.actor.conv.index[ref];
               && it.view.ref == ref && it.view.role.AssistantRole? && it.view.content.AudioContent?
               && it.view.text == TextIn(s.received) && it.audioBytes == AudioIn(s.received)
               && it.segments == SegmentsIn(s.received) && it.alignment == []
  {
    hide ParseAll;
    hide PipesInv;
    hide RunInv;
    hide ItemsFit;
  }

  lemma ReceivedFits(s: System)
    requires SysInv(s) && IsRunning(s.actor) && !s.closed && s.queue == []
    ensures Fits(TextIn(s.received), SegmentsIn(s.received), AudioIn(s.received))
  {
    hide ActorInv;
    hide Progress;
    hide ItemsFit;
    hide Coherent;
    hide Fits;
    var p := LastPipe(s);
    assert PipeInv(p);
    assert s.received + [] == s.received;
    SegmentsFit(p.log, p.sender);
  }

  lemma WordsAreValid()
    ensures Valid(WORD + WORD) && Valid(WORD)
  {
    AsciiIsValid(WORD);
    AsciiIsValid(WORD + WORD);
  }

  lemma {:induction false} AsciiIsValid(b: Text)
    requires forall i :: 0 <= i < |b| ==> b[i] < 0x80
    ensures Valid(b)
    decreases |b|
  {
    hide DecodeRune;
    if b != [] {
      Sentences.AsciiDecodes(b);
      AsciiIsValid(b[1..]);
    }
  }

  // Cut at fifteen milliseconds, the item keeps one word and half of the other.
  lemma KeepsNineBytes()
    ensures TrimText(WORD + WORD, [Segment(0, 6, 0, 480), Segment(6, 12, 480, 960)], [], 720, 960)
         == Trimmed((WORD + WORD)[..9])
  {
    var text := WORD + WORD;
    var segs := [Segment(0, 6, 0, 480), Segment(6, 12, 480, 960)];
    assert text[6..12] == WORD;
    AsciiRunes(WORD);
    AsciiEncodes(Runes(WORD)[..3]);
    assert KeepOfSegment(text, segs[1], 720) == 9;
    assert segs[1..][0] == segs[1];
    assert KeepBytes(text, segs, 720, 0) == Bytes(9);
  }

  lemma SecondCutPanics(st: State, ref: ItemRef)
    requires Trimmable(st, ref) && !st.panicked
    requires var it := st.conv.index[ref];
             it.view.text == WORD + WORD && it.audioBytes == 960 && it.alignment == []
             && it.segments == [Segment(0, 6, 0, 480), Segment(6, 12, 480, 960)]
    ensures OnTruncateItem(OnTruncateItem(st, ref, 0, 15), ref, 0, 14).panicked
  {
    hide TrimText;
    hide CutDown;
    KeepsNineBytes();
    AnyTruncate(st, ref, 0, 15);
    var st1 := OnTruncateItem(st, ref, 0, 15);
    var segs := st.conv.index[ref].segments;
    assert st1.conv.index[ref].segments == segs && |st1.conv.index[ref].view.text| == 9;
    assert Straddles(segs[1], 672) && segs[1].textEnd > 9;
    AnyTruncate(st1, ref, 0, 14);
  }

  lemma TwoTruncates(s: System, isLetter: Rune -> bool, ref: ItemRef)
    requires !s.over && !s.closed && !s.actor.cancelled
    requires OnTruncateItem(OnTruncateItem(s.actor, ref, 0, 15), ref, 0, 14).panicked
    ensures MayRun(s, isLetter, Cuts(ref, 15, 14)) && Run(s, isLetter, Cuts(ref, 15, 14)).actor.panicked
  {
    hide OnTruncateItem;
    var t1 := Handle(GotCommand(TruncateItem(ref, 0, 15), FINE));
    var t2 := Handle(GotCommand(TruncateItem(ref, 0, 14), FINE));
    TruncateKeepsRunning(s.actor, ref, 15);
    var s1 := Take(s, isLetter, t1);
    RunOne(s1, isLetter, t2);
    assert [t1, t2][1..] == [t2];
  }

  lemma TruncateKeepsRunning(st: State, ref: ItemRef, ms: int)
    ensures OnTruncateItem(st, ref, 0, ms).cancelled == st.cancelled
  {
    hide TrimText;
  }

  // Both sentences are in, spoken and queued.
  lemma BothSpoken(s: System, isLetter: Rune -> bool)
    requires s.pipes == [NewPipe(Sender(1, 1, false))] && s.queue == []
    ensures var steps := Stages(Reads()) + Stages(Speaks()) + Stages(SpeaksOn());
            var p := Spoken2(Sender(1, 1, false));
            MayRun(s, isLetter, steps) && Run(s, isLetter, steps) == s.(pipes := [p], queue := p.log)
  {
    hide Stages;
    hide Reads;
    hide Speaks;
    hide SpeaksOn;
    hide MayRun;
    hide Run;
    var snd := Sender(1, 1, false);
    ReadingPhase(isLetter, snd);
    StagesRun(s, isLetter, Reads(), Split2(snd));
    var s1 := s.(pipes := [Split2(snd)], queue := Split2(snd).log);
    SpeakingPhase(isLetter, snd);
    StagesRun(s1, isLetter, Speaks(), Spoken1(snd));
    var s2 := s.(pipes := [Spoken1(snd)], queue := Spoken1(snd).log);
    SpeakingOnPhase(isLetter, snd);
    StagesRun(s2, isLetter, SpeaksOn(), Spoken2(snd));
    RunAppend(s, isLetter, Stages(Reads()), Stages(Speaks()));
    RunAppend(s, isLetter, Stages(Reads()) + Stages(Speaks()), Stages(SpeaksOn()));
  }

  // The client truncates ref at ms1 milliseconds and then at ms2.
  function Cuts(ref: ItemRef, ms1: nat, ms2: nat): seq<Step> {
    [Handle(GotCommand(TruncateItem(ref, 0, ms1), FINE)), Handle(GotCommand(TruncateItem(ref, 0, ms2), FINE))]
  }

  // Nothing has gone wrong, and the two truncates go out of range.
  ghost predicate CutsOutOfRange(s: System, isLetter: Rune -> bool, ref: ItemRef, ms1: nat, ms2: nat) {
    && !s.actor.panicked && Trimmable(s.actor, ref)
    && MayRun(s, isLetter, Cuts(ref, ms1, ms2)) && Run(s, isLetter, Cuts(ref, ms1, ms2)).actor.panicked
  }

  // A session that goes out of range: a response says and speaks two sentences of
  // six characters over ten milliseconds each, and the client truncates it at
  // fifteen milliseconds and then at fourteen.
  lemma ItHappens(isLetter: Rune -> bool)
    ensures exists s, ref :: Reachable(s, isLetter) && CutsOutOfRange(s, isLetter, ref, 15, 14)
  {
    hide Reachable;
    hide MayRun;
    hide Run;
    hide SysInv;
    hide Running1;
    hide Take;
    hide MayStep;
    hide Stages;
    var s0 := NewSystem(MANUAL, 0);
    var c := Handle(GotCommand(CreateResponse(NO_OVERRIDES), FINE));
    NewIsReachable(MANUAL, 0, isLetter);
    FirstResponse(isLetter);
    RunOne(s0, isLetter, c);
    GoesOnReachable(s0, isLetter, [c]);
    var s1 := Take(s0, isLetter, c);
    var stages := Stages(Reads()) + Stages(Speaks()) + Stages(SpeaksOn());
    BothSpoken(s1, isLetter);
    GoesOnReachable(s1, isLetter, stages);
    DeliveredAndCut(s1.(pipes := [Spoken2(Sender(1, 1, false))], queue := Spoken2(Sender(1, 1, false)).log), isLetter);
  }

  lemma DeliveredAndCut(s: System, isLetter: Rune -> bool)
    requires Reachable(s, isLetter) && !s.over && !s.closed && Running1(s.actor) && !s.actor.cancelled
             && !s.actor.panicked
    requires s.actor.activeGen == 1 && s.actor.active.Some? && !s.actor.active.value.textOnly
    requires s.queue == Spoken2(Sender(1, 1, false)).log && s.received == []
    ensures exists s', ref :: Reachable(s', isLetter) && CutsOutOfRange(s', isLetter, ref, 15, 14)
  {
    hide Reachable;
    hide MayRun;
    hide Run;
    hide SysInv;
    hide Running1;
    hide Trimmable;
    hide OnTruncateItem;
    ReachableIsSound(s, isLetter);
    DeliveriesRun(s, isLetter);
    var s1 := Run(s, isLetter, Deliveries(|s.queue|));
    GoesOnReachable(s, isLetter, Deliveries(|s.queue|));
    assert [] + s.queue == s.queue;
    RunningIs(s1.actor);
    ItemIsTrimmable(s1);
    var ref := s1.actor.active.value.item;
    SecondCutPanics(s1.actor, ref);
    TwoTruncates(s1, isLetter, ref);
    NotPanicked(s1);
    assert CutsOutOfRange(s1, isLetter, ref, 15, 14);
  }

  lemma NotPanicked(s: System)
    requires Going(s)
    ensures !s.actor.panicked
  {
  }

  lemma RunningIs(st: State)
    requires Running1(st)
    ensures IsRunning(st)
  {
  }
}
