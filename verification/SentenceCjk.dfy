// A condition on the text alone under which chunking cannot show, and texts on
// which it does (internal/session/sentencer.go:68-112).
module SentenceCjk {
  import opened Audio
  import opened Utf8
  import opened Sentences
  import opened SentenceChunking
  import opened SentenceCuts
  import opened SentenceStreams

  // ---- a condition on the text alone ----------------------------------------------------------------------

  // A CJK terminator at i whose run goes on behind it.
  ghost predicate CjkGoesOn(text: Text, i: nat) {
    i < |text| && IsCjkTerminator(DecodeRune(text[i..]).rune) && GoesOn(text[i + DecodeRune(text[i..]).size..])
  }

  // Every CJK terminator is the last rune of its run.
  ghost predicate CjkEndsRuns(text: Text) {
    forall i :: 0 <= i < |text| ==> !CjkGoesOn(text, i)
  }

  // A CJK terminator in the run that ends buf.
  ghost predicate CjkAt(buf: Text, t: nat) {
    && t < |buf| && !CutOff(buf[t..])
    && IsCjkTerminator(DecodeRune(buf[t..]).rune)
    && EndOfRun(buf, t + DecodeRune(buf[t..]).size) == Ends(|buf|)
  }

  lemma {:induction false} RunHasCjk(buf: Text, i: nat)
    requires i <= |buf| && EndOfRun(buf, i) == Ends(|buf|) && CjkInRun(buf[i..])
    ensures exists t :: CjkAt(buf, t)
    decreases |buf| - i
  {
    hide DecodeRune;
    hide CutOff;
    var d := DecodeRune(buf[i..]);
    RunStep(buf, i, |buf|);
    if IsCjkTerminator(d.rune) {
      assert CjkAt(buf, i);
    } else {
      assert buf[i..][d.size..] == buf[i + d.size..];
      RunHasCjk(buf, i + d.size);
    }
  }

  lemma {:induction false} BoundaryHasCjk(isLetter: Rune -> bool, buf: Text, i: nat, entry: nat)
    requires entry <= i <= |buf| && Scan(isLetter, buf, i, entry) == Found(|buf|) && AtEndOfRun(buf, |buf|)
    ensures exists t :: CjkAt(buf, t)
    decreases |buf| - i
  {
    hide DecodeRune;
    hide CutOff;
    hide IsAbbreviation;
    hide EndOfRun;
    var d := DecodeRune(buf[i..]);
    LastNewline(buf, i);
    if !IsTerminator(d.rune) {
      BoundaryHasCjk(isLetter, buf, i + d.size, entry);
    } else {
      var j := EndOfRun(buf, i + d.size).at;
      if j < |buf| {
        BoundaryHasCjk(isLetter, buf, j, entry);
      } else if IsCjkTerminator(d.rune) {
        assert CjkAt(buf, i);
      } else {
        assert buf[i..j] == buf[i..] && buf[i..][d.size..] == buf[i + d.size..];
        RunHasCjk(buf, i + d.size);
      }
    }
  }

  lemma CjkAtGoesOn(buf: Text, more: Text, t: nat)
    requires CjkAt(buf, t) && GoesOn(more)
    ensures CjkGoesOn(buf + more, t)
  {
    hide DecodeRune;
    hide CutOff;
    StableRune(buf, more, t);
    var next := t + DecodeRune(buf[t..]).size;
    if next < |buf| {
      RunStep(buf, next, |buf|);
      StableRune(buf, more, next);
    } else {
      assert (buf + more)[next..] == more;
    }
  }

  lemma {:induction false} ShowingNeedsCjk(isLetter: Rune -> bool, s: Splitter, more: Text)
    requires WellFormed(s) && StopsAtRun(isLetter, s) && GoesOn(more)
    ensures exists i :: CjkGoesOn(s.buf + more, i)
    decreases |s.buf|, |s.buf| - s.scan
  {
    hide Scan;
    hide RuneCount;
    hide GoesOn;
    hide CjkGoesOn;
    var end := Scan(isLetter, s.buf, s.scan, s.scan).end;
    if AtEndOfRun(s.buf, end) {
      BoundaryHasCjk(isLetter, s.buf, s.scan, s.scan);
      var t :| CjkAt(s.buf, t);
      CjkAtGoesOn(s.buf, more, t);
    } else if RuneCount(s.buf[..end]) < MIN_SENTENCE_RUNES {
      ShowingNeedsCjk(isLetter, s.(scan := end), more);
    } else {
      ShowingNeedsCjk(isLetter, AfterTake(s, end), more);
      WithTake(s, end, more);
      var i :| CjkGoesOn(AfterTake(s, end).buf + more, i);
      CjkShifts(s.buf + more, end, i);
    }
  }

  lemma CjkShifts(text: Text, k: nat, i: nat)
    requires k <= |text| && CjkGoesOn(text[k..], i)
    ensures CjkGoesOn(text, k + i)
  {
    hide DecodeRune;
    hide GoesOn;
    assert text[k..][i..] == text[k + i..];
    assert text[k..][i + DecodeRune(text[k + i..]).size..] == text[k + i + DecodeRune(text[k + i..]).size..];
  }

  lemma {:induction false} SafeTextShowsNothing(isLetter: Rune -> bool, s: Splitter, before: Text, chunks: seq<Text>)
    requires Holds(s, before) && CjkEndsRuns(before + Concat(chunks))
    ensures NothingShows(isLetter, s, chunks)
    decreases |chunks|
  {
    hide Push;
    hide Shows;
    hide CjkEndsRuns;
    hide Tiles;
    hide LongEnough;
    if |chunks| > 1 {
      var rest := Concat(chunks[1..]);
      assert before + Concat(chunks) == before + chunks[0] + rest;
      SafeCut(isLetter, s, before, chunks[0], rest);
      PushTiles(isLetter, s, chunks[0], before);
      SafeTextShowsNothing(isLetter, Push(isLetter, s, chunks[0]).0, before + chunks[0], chunks[1..]);
    }
  }

  lemma SafeCut(isLetter: Rune -> bool, s: Splitter, before: Text, chunk: Text, rest: Text)
    requires Holds(s, before) && CjkEndsRuns(before + chunk + rest)
    ensures !Shows(isLetter, With(s, chunk), rest)
  {
    hide StopsAtRun;
    hide CjkGoesOn;
    hide Missed;
    hide GoesOn;
    hide Split;
    var text := before + chunk + rest;
    var s1 := With(s, chunk);
    if Shows(isLetter, s1, rest) {
      ShowingNeedsCjk(isLetter, s1, rest);
      var i :| CjkGoesOn(s1.buf + rest, i);
      assert text[s.base..] == s1.buf + rest;
      CjkShifts(text, s.base, i);
      CjkIsInside(text, s.base + i);
    }
  }

  lemma CjkIsInside(text: Text, i: nat)
    requires CjkGoesOn(text, i)
    ensures i < |text|
  {
  }

  // Text in which every CJK terminator ends its run splits the same however it
  // is cut into chunks.
  lemma ChunkingIsUnobservable(isLetter: Rune -> bool, a: seq<Text>, b: seq<Text>)
    requires Concat(a) == Concat(b) && CjkEndsRuns(Concat(a))
    ensures Stream(isLetter, a) == Stream(isLetter, b) == Batch(isLetter, Concat(a), 0)
  {
    hide NothingShows;
    hide CjkEndsRuns;
    hide Stream;
    hide Batch;
    assert [] + Concat(a) == Concat(a) && [] + Concat(b) == Concat(b);
    SafeTextShowsNothing(isLetter, EMPTY, [], a);
    SafeTextShowsNothing(isLetter, EMPTY, [], b);
    StreamIsBatch(isLetter, a);
    StreamIsBatch(isLetter, b);
  }

  // ---- texts on which it shows ---------------------------------------------------------------------------------

  const STOP: Text := [0xE3, 0x80, 0x82]
  const QUOTE: Byte := 0x22

  // n letters and an ideographic full stop.
  function Said(n: nat): Text {
    seq(n, _ => 0x61) + STOP
  }

  lemma StopDecodes(b: Text)
    requires STOP <= b
    ensures DecodeRune(b) == Decoded(0x3002, 3) && !CutOff(b)
  {
    assert b[0] == STOP[0] && b[1] == STOP[1] && b[2] == STOP[2];
  }

  lemma {:induction false} LettersPass(isLetter: Rune -> bool, n: nat, i: nat)
    requires i <= n
    ensures Scan(isLetter, Said(n), i, 0) == Found(n + 3)
    decreases n - i
  {
    hide DecodeRune;
    hide CutOff;
    var buf := Said(n);
    if i < n {
      AsciiDecodes(buf[i..]);
      LettersPass(isLetter, n, i + 1);
    } else {
      assert buf[n..] == STOP;
      StopDecodes(buf[n..]);
    }
  }

  lemma {:induction false} SaidCount(n: nat)
    ensures RuneCount(Said(n)) == n + 1
  {
    hide DecodeRune;
    var buf := Said(n);
    if n == 0 {
      assert buf == STOP;
      StopDecodes(buf);
      assert buf[3..] == [];
    } else {
      AsciiDecodes(buf);
      assert buf[1..] == Said(n - 1);
      SaidCount(n - 1);
    }
  }

  // What the splitter does with it, by its length.
  lemma SaidStops(isLetter: Rune -> bool, n: nat)
    ensures With(EMPTY, Said(n)) == Splitter(Said(n), 0, 0)
    ensures StopsAtRun(isLetter, Splitter(Said(n), 0, 0))
    ensures Split(isLetter, Splitter(Said(n), 0, 0)).0.buf == if n >= 5 then [] else Said(n)
  {
    hide Scan;
    hide RuneCount;
    hide Said;
    var buf := Said(n);
    SaidEnds(n);
    assert [] + buf == buf && buf[..n + 3] == buf && buf[n + 3..] == [];
    LettersPass(isLetter, n, 0);
    SaidCount(n);
    if n >= 5 {
      SaidTaken(isLetter, n, buf);
    } else {
      StopsHere(isLetter, Splitter(buf, 0, 0));
    }
  }

  lemma SaidEnds(n: nat)
    ensures |Said(n)| == n + 3 && Said(n)[n + 2] == STOP[2] && AtEndOfRun(Said(n), n + 3)
  {
  }

  lemma SaidTaken(isLetter: Rune -> bool, n: nat, buf: Text)
    requires |buf| == n + 3 && Scan(isLetter, buf, 0, 0) == Found(n + 3) && RuneCount(buf) >= MIN_SENTENCE_RUNES
    ensures Split(isLetter, Splitter(buf, 0, 0)).0 == Splitter([], n + 3, 0)
  {
    hide Scan;
    hide RuneCount;
    assert buf[..n + 3] == buf && buf[n + 3..] == [];
    assert AfterTake(Splitter(buf, 0, 0), n + 3) == Splitter([], n + 3, 0);
    NothingLeft(isLetter, n + 3);
  }

  lemma QuoteGoesOn(after: Text)
    ensures GoesOn([QUOTE] + after)
  {
    AsciiDecodes([QUOTE] + after);
  }

  // A closing quote that comes in the chunk after the full stop: with five
  // letters or more the sentence has ended without it.
  lemma QuoteComesTooLate(isLetter: Rune -> bool, n: nat, after: Text)
    requires n >= 5
    ensures Stream(isLetter, [Said(n), [QUOTE] + after]) != Stream(isLetter, [Said(n) + ([QUOTE] + after)])
  {
    hide StopsAtRun;
    hide Split;
    hide Stream;
    SaidStops(isLetter, n);
    QuoteGoesOn(after);
    EndedTooEarly(isLetter, Said(n), [QUOTE] + after);
  }

  // With four it has not, and the quote makes six runes; but a quote ends
  // nothing, so an end is missed as soon as other text follows.
  lemma QuoteIsMissed(isLetter: Rune -> bool, after: Text)
    requires after != [] && after[0] < 0x80 && !InRun(after[0])
    ensures Stream(isLetter, [Said(4), [QUOTE] + after]) != Stream(isLetter, [Said(4) + ([QUOTE] + after)])
  {
    hide StopsAtRun;
    hide Split;
    hide Stream;
    SaidStops(isLetter, 4);
    QuoteGoesOn(after);
    QuoteMakesSix(isLetter, after);
    EndedTooLate(isLetter, Said(4), [QUOTE] + after);
  }

  lemma QuoteMakesSix(isLetter: Rune -> bool, after: Text)
    requires after != [] && after[0] < 0x80 && !InRun(after[0])
    ensures Missed(isLetter, Said(4), [QUOTE] + after)
  {
    hide RuneCount;
    hide DecodeRune;
    hide CutOff;
    var text := Said(4) + ([QUOTE] + after);
    assert text[7..] == [QUOTE] + after && text[8..] == after && text[7..8] == [QUOTE];
    AsciiDecodes(text[7..]);
    AsciiDecodes(text[8..]);
    AsciiDecodes([QUOTE]);
    assert [QUOTE][1..] == [];
    assert EndOfRun(text, 8) == Ends(8);
    assert EndOfRun(text, 7) == Ends(8);
    assert text[..8] == Said(4) + [QUOTE];
    SixRunes();
    assert FirstTerminator(text, 7, 8) == 8;
    assert !CjkInRun([QUOTE][1..]);
    assert !CjkInRun(text[7..8]);
    assert |Said(4)| == 7;
  }

  lemma SixRunes()
    ensures RuneCount(Said(4) + [QUOTE]) == 6
  {
    hide DecodeRune;
    RunesOfBoth(4);
  }

  lemma {:induction false} RunesOfBoth(n: nat)
    ensures RuneCount(Said(n) + [QUOTE]) == n + 2
  {
    hide DecodeRune;
    var buf := Said(n) + [QUOTE];
    if n == 0 {
      assert Said(0) == STOP;
      StopDecodes(buf);
      assert buf[3..] == [QUOTE];
      AsciiDecodes([QUOTE]);
      assert [QUOTE][1..] == [];
      assert RuneCount([QUOTE]) == 1;
    } else {
      AsciiDecodes(buf);
      assert buf[1..] == Said(n - 1) + [QUOTE];
      RunesOfBoth(n - 1);
    }
  }
}
