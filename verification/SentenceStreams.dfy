// When the incremental splitter refines the batch splitter: exactly when none of
// the cuts between its chunks shows (internal/session/sentencer.go:33-112).
module SentenceStreams {
  import opened Utf8
  import opened Sentences
  import opened SentenceChunking
  import opened SentenceCuts

  // ---- whole streams -----------------------------------------------------------------------------------------

  // What comes out of s from chunks on, flush included.
  function Rest(isLetter: Rune -> bool, s: Splitter, chunks: seq<Text>): seq<Sentence>
    requires WellFormed(s)
  {
    PushAll(isLetter, s, chunks).1 + Flush(PushAll(isLetter, s, chunks).0).1
  }

  // One more cut in the text that is still to come changes the sentences exactly
  // when it shows.
  lemma CutShows(isLetter: Rune -> bool, s: Splitter, a: Text, b: Text)
    requires WellFormed(s)
    ensures Rest(isLetter, s, [a, b]) == Rest(isLetter, s, [a + b]) <==> !Shows(isLetter, With(s, a), b)
  {
    hide Split;
    hide Finish;
    hide Shows;
    OneCut(isLetter, With(s, a), b);
    var (s1, out1) := Push(isLetter, s, a);
    RestOfOne(isLetter, s, a + b);
    RestOfOne(isLetter, s1, b);
    RestOfMore(isLetter, s, a, [b]);
    assert [a, b] == [a] + [b];
    assert With(With(s, a), b) == With(s, a + b) by { assert s.buf + a + b == s.buf + (a + b); }
  }

  lemma RestOfOne(isLetter: Rune -> bool, s: Splitter, chunk: Text)
    requires WellFormed(s)
    ensures Rest(isLetter, s, [chunk]) == Finish(isLetter, With(s, chunk))
  {
    hide Split;
    var chunks := [chunk];
    assert chunks[1..] == [];
    var (s1, out1) := Push(isLetter, s, chunk);
    assert PushAll(isLetter, s1, chunks[1..]) == (s1, []);
    assert out1 + [] == out1;
  }

  lemma RestOfMore(isLetter: Rune -> bool, s: Splitter, chunk: Text, chunks: seq<Text>)
    requires WellFormed(s)
    ensures var (s1, out1) := Push(isLetter, s, chunk);
            Rest(isLetter, s, [chunk] + chunks) == out1 + Rest(isLetter, s1, chunks)
  {
    hide Push;
    assert ([chunk] + chunks)[1..] == chunks;
    var (s1, out1) := Push(isLetter, s, chunk);
    var (s2, out2) := PushAll(isLetter, s1, chunks);
    assert (out1 + out2) + Flush(s2).1 == out1 + (out2 + Flush(s2).1);
  }

  // ---- what shows, shows for good ------------------------------------------------------------------------------

  // A search that starts at i does not end the sentence at j, or before: it is
  // past j, or in a run that ends at j and ends nothing from i on.
  ghost predicate Past(isLetter: Rune -> bool, text: Text, i: nat, j: nat) {
    && i <= |text| && j < |text|
    && (i < j ==> EndOfRun(text, i) == Ends(j) && !EndsByItself(isLetter, text, i, j))
  }

  // One rune of such a run.
  lemma PastStep(isLetter: Rune -> bool, text: Text, i: nat, j: nat)
    requires Past(isLetter, text, i, j) && i < j
    ensures !CutOff(text[i..]) && InRun(DecodeRune(text[i..]).rune)
    ensures var d := DecodeRune(text[i..]);
            && i + d.size <= j && !IsCjkTerminator(d.rune) && !CjkInRun(text[i..j])
            && (if IsTerminator(d.rune) then !IsSpace(DecodeRune(text[j..]).rune) || IsAbbreviation(isLetter, text[..i])
                else Past(isLetter, text, i + d.size, j))
  {
    hide DecodeRune;
    hide CutOff;
    hide IsAbbreviation;
    RunStep(text, i, j);
    CjkStep(text, i, j);
  }

  // The run as far as buf goes.
  lemma RunSoFar(buf: Text, more: Text, i: nat, j: nat)
    requires i <= |buf| && EndOfRun(buf + more, i) == Ends(j) && EndOfRun(buf, i).Ends?
    ensures var r := EndOfRun(buf, i).at;
            && r <= j && (r < |buf| ==> r == j && !CutOff(buf[j..]))
            && (CjkInRun(buf[i..r]) ==> CjkInRun((buf + more)[i..j]))
  {
    hide DecodeRune;
    hide CutOff;
    var r := EndOfRun(buf, i).at;
    if r < |buf| {
      StableRun(buf, more, i);
      RunEndsAtRune(buf, i);
      assert (buf + more)[i..j] == buf[i..r];
    } else {
      RunGoesOn(buf, more, i);
      if CjkInRun(buf[i..r]) { CjkStays(buf, more, i, j); }
    }
  }

  // However much of text has come, the search passes j.
  lemma {:induction false} ScanPasses(isLetter: Rune -> bool, buf: Text, more: Text, i: nat, entry: nat, j: nat)
    requires entry <= i <= |buf| && Past(isLetter, buf + more, i, j)
    ensures match Scan(isLetter, buf, i, entry)
            case Found(end) => end > j
            case More(scan) => scan == entry || (scan == |buf| && Past(isLetter, buf + more, |buf|, j))
    decreases |buf| - i
  {
    hide DecodeRune;
    hide CutOff;
    hide IsAbbreviation;
    hide EndOfRun;
    hide CjkInRun;
    if i >= j {
      if Scan(isLetter, buf, i, entry).More? { MoreIsEntryOrEnd(isLetter, buf, i, entry); }
    } else if i < |buf| && !CutOff(buf[i..]) {
      var text := buf + more;
      StableRune(buf, more, i);
      PastStep(isLetter, text, i, j);
      var d := DecodeRune(buf[i..]);
      if IsTerminator(d.rune) {
        TerminatorPasses(isLetter, buf, more, i, entry, j);
      } else {
        ScanPasses(isLetter, buf, more, i + d.size, entry, j);
      }
    }
  }

  lemma TerminatorPasses(isLetter: Rune -> bool, buf: Text, more: Text, i: nat, entry: nat, j: nat)
    requires entry <= i < |buf| && i < j && Past(isLetter, buf + more, i, j) && !CutOff(buf[i..])
    requires IsTerminator(DecodeRune(buf[i..]).rune)
    ensures match Scan(isLetter, buf, i, entry)
            case Found(end) => end > j
            case More(scan) => scan == entry || (scan == |buf| && Past(isLetter, buf + more, |buf|, j))
  {
    hide DecodeRune;
    hide CutOff;
    hide IsAbbreviation;
    hide EndOfRun;
    hide CjkInRun;
    var text := buf + more;
    StableRune(buf, more, i);
    PastStep(isLetter, text, i, j);
    RunFromNext(buf, i);
    if EndOfRun(buf, i).Ends? {
      RunSoFar(buf, more, i, j);
      var r := EndOfRun(buf, i).at;
      if r < |buf| {
        StableRune(buf, more, j);
        assert buf[..i] == text[..i];
        if Scan(isLetter, buf, j, entry).More? { MoreIsEntryOrEnd(isLetter, buf, j, entry); }
      }
    }
  }

  lemma RunFromNext(buf: Text, i: nat)
    requires i < |buf| && !CutOff(buf[i..]) && InRun(DecodeRune(buf[i..]).rune)
    ensures EndOfRun(buf, i) == EndOfRun(buf, i + DecodeRune(buf[i..]).size)
  {
    hide DecodeRune;
    hide CutOff;
  }

  // What has come is split: nothing, or first a sentence that ends behind j.
  lemma {:induction false} SplitPasses(isLetter: Rune -> bool, s: Splitter, more: Text, j: nat)
    requires WellFormed(s) && Past(isLetter, s.buf + more, s.scan, j)
    ensures var (s', out) := Split(isLetter, s);
            if out == [] then s'.buf == s.buf && s'.base == s.base && Past(isLetter, s.buf + more, s'.scan, j)
            else out[0].end > s.base + j
    decreases |s.buf| - s.scan
  {
    hide Scan;
    hide RuneCount;
    hide EndOfRun;
    hide EndsByItself;
    ScanPasses(isLetter, s.buf, more, s.scan, s.scan, j);
    match Scan(isLetter, s.buf, s.scan, s.scan)
    case More(_) =>
    case Found(end) =>
      if RuneCount(s.buf[..end]) < MIN_SENTENCE_RUNES {
        SplitPasses(isLetter, s.(scan := end), more, j);
      }
  }

  // However the rest is cut, the first sentence ends behind j.
  lemma {:induction false} RestPasses(isLetter: Rune -> bool, s: Splitter, chunks: seq<Text>, j: nat)
    requires WellFormed(s) && Past(isLetter, s.buf + Concat(chunks), s.scan, j)
    ensures Rest(isLetter, s, chunks) != [] && Rest(isLetter, s, chunks)[0].end > s.base + j
    decreases |chunks|
  {
    hide Split;
    hide EndOfRun;
    hide EndsByItself;
    if chunks == [] {
      assert s.buf + [] == s.buf;
    } else {
      var rest := Concat(chunks[1..]);
      var s1 := With(s, chunks[0]);
      assert s1.buf + rest == s.buf + Concat(chunks);
      SplitPasses(isLetter, s1, rest, j);
      assert chunks == [chunks[0]] + chunks[1..];
      RestOfMore(isLetter, s, chunks[0], chunks[1..]);
      if Split(isLetter, s1).1 == [] {
        RestPasses(isLetter, Split(isLetter, s1).0, chunks[1..], j);
      }
    }
  }

  // No later cut makes up for one that shows.
  lemma {:induction false} ShowsForGood(isLetter: Rune -> bool, s: Splitter, chunks: seq<Text>)
    requires WellFormed(s) && Shows(isLetter, s, Concat(chunks))
    ensures Split(isLetter, s).1 + Rest(isLetter, Split(isLetter, s).0, chunks)
         != Finish(isLetter, With(s, Concat(chunks)))
    decreases |s.buf|, |s.buf| - s.scan
  {
    hide Scan;
    hide RuneCount;
    hide Finish;
    hide Rest;
    hide GoesOn;
    hide Missed;
    var more := Concat(chunks);
    var end := Scan(isLetter, s.buf, s.scan, s.scan).end;
    if AtEndOfRun(s.buf, end) {
      RunShowsForGood(isLetter, s, chunks);
    } else {
      FoundStays(isLetter, s.buf, more, s.scan, s.scan);
      WithTake(s, end, more);
      assert (s.buf + more)[..end] == s.buf[..end];
      if RuneCount(s.buf[..end]) < MIN_SENTENCE_RUNES {
        ShowsForGood(isLetter, s.(scan := end), chunks);
        SkipsShort(isLetter, With(s, more), end);
      } else {
        var s1 := AfterTake(s, end);
        ShowsForGood(isLetter, s1, chunks);
        TakesLong(isLetter, With(s, more), end);
        var (s', out) := Split(isLetter, s1);
        Cons(Take(s, end), out, Rest(isLetter, s', chunks), Finish(isLetter, With(s1, more)));
      }
    }
  }

  lemma RunShowsForGood(isLetter: Rune -> bool, s: Splitter, chunks: seq<Text>)
    requires WellFormed(s) && Shows(isLetter, s, Concat(chunks))
    requires Scan(isLetter, s.buf, s.scan, s.scan) == Found(|s.buf|) && AtEndOfRun(s.buf, |s.buf|)
    ensures Split(isLetter, s).1 + Rest(isLetter, Split(isLetter, s).0, chunks)
         != Finish(isLetter, With(s, Concat(chunks)))
  {
    hide Scan;
    hide RuneCount;
    hide Finish;
    hide Rest;
    hide GoesOn;
    var more := Concat(chunks);
    var end := |s.buf|;
    var t := With(s, more);
    assert s.buf[..end] == s.buf;
    FinishUnfolds(isLetter, t);
    assert Finish(isLetter, t)[0].end == s.base + CutEnd(isLetter, t.buf, t.scan);
    if RuneCount(s.buf) < MIN_SENTENCE_RUNES {
      StopsHere(isLetter, s);
      MissedEnd(isLetter, s, more);
      var j := EndOfRun(t.buf, end).at;
      RestPasses(isLetter, s.(scan := end), chunks, j);
      assert [] + Rest(isLetter, s.(scan := end), chunks) == Rest(isLetter, s.(scan := end), chunks);
    } else {
      NothingLeft(isLetter, s.base + end);
      assert s.buf[end..] == [];
      assert Split(isLetter, s) == (Splitter([], s.base + end, 0), [Take(s, end)] + []);
      LongCase(isLetter, s.buf, more, s.scan);
      assert (Split(isLetter, s).1 + Rest(isLetter, Split(isLetter, s).0, chunks))[0] == Take(s, end);
    }
  }

  // The end that is missed.
  lemma MissedEnd(isLetter: Rune -> bool, s: Splitter, more: Text)
    requires WellFormed(s) && Missed(isLetter, s.buf, more) && GoesOn(more)
    requires Scan(isLetter, s.buf, s.scan, s.scan) == Found(|s.buf|) && AtEndOfRun(s.buf, |s.buf|)
    ensures var j := EndOfRun(s.buf + more, |s.buf|).at;
            CutEnd(isLetter, s.buf + more, s.scan) == j && Past(isLetter, s.buf + more, |s.buf|, j)
  {
    hide Scan;
    hide RuneCount;
    hide EndOfRun;
    hide EndsByItself;
    FoundMoves(isLetter, s.buf, more, s.scan, s.scan);
  }

  // No cut between the chunks shows.
  ghost predicate NothingShows(isLetter: Rune -> bool, s: Splitter, chunks: seq<Text>)
    requires WellFormed(s)
    decreases |chunks|
  {
    |chunks| <= 1
    || (!Shows(isLetter, With(s, chunks[0]), Concat(chunks[1..]))
        && NothingShows(isLetter, Push(isLetter, s, chunks[0]).0, chunks[1..]))
  }

  // The sentences are those of having the rest at once exactly when no cut shows.
  lemma {:induction false} CutsShow(isLetter: Rune -> bool, s: Splitter, chunks: seq<Text>)
    requires WellFormed(s) && chunks != []
    ensures Rest(isLetter, s, chunks) == Finish(isLetter, With(s, Concat(chunks)))
            <==> NothingShows(isLetter, s, chunks)
    decreases |chunks|
  {
    hide Split;
    hide Shows;
    hide Rest;
    hide Finish;
    var tail := chunks[1..];
    assert chunks == [chunks[0]] + tail;
    if tail == [] {
      assert chunks == [chunks[0]];
      ConcatOne(chunks[0]);
      RestOfOne(isLetter, s, chunks[0]);
    } else {
      var rest := Concat(tail);
      var (s1, out1) := Push(isLetter, s, chunks[0]);
      CutsShow(isLetter, s1, tail);
      RestOfMore(isLetter, s, chunks[0], tail);
      assert With(With(s, chunks[0]), rest) == With(s, Concat(chunks)) by {
        assert s.buf + chunks[0] + rest == s.buf + (chunks[0] + rest);
      }
      if Shows(isLetter, With(s, chunks[0]), rest) {
        ShowsForGood(isLetter, With(s, chunks[0]), tail);
      } else {
        OneCut(isLetter, With(s, chunks[0]), rest);
        Cancel(out1, Rest(isLetter, s1, tail), Finish(isLetter, With(s1, rest)));
      }
    }
  }

  // The batch splitter is the splitter that gets the whole text at once.
  lemma {:induction false} BatchIsFinish(isLetter: Rune -> bool, text: Text, base: nat)
    ensures Batch(isLetter, text, base) == Finish(isLetter, Splitter(text, base, 0))
    decreases |text|
  {
    hide Finish;
    hide FirstCut;
    if text == [] {
      NothingLeft(isLetter, base);
      NoCut(isLetter);
    } else {
      FinishUnfolds(isLetter, Splitter(text, base, 0));
      var end := CutEnd(isLetter, text, 0);
      if FirstCut(isLetter, text, 0).Some? {
        BatchIsFinish(isLetter, text[end..], base + end);
      } else {
        NothingLeft(isLetter, base + |text|);
        assert text[..|text|] == text && text[|text|..] == [];
      }
    }
  }

  lemma NoCut(isLetter: Rune -> bool)
    ensures FirstCut(isLetter, [], 0) == None
  {
  }

  lemma StreamIsRest(isLetter: Rune -> bool, chunks: seq<Text>)
    ensures Stream(isLetter, chunks) == Rest(isLetter, EMPTY, chunks)
  {
  }

  // A stream gives the sentences of the batch splitter exactly when none of its
  // cuts shows.
  lemma StreamIsBatch(isLetter: Rune -> bool, chunks: seq<Text>)
    ensures Stream(isLetter, chunks) == Batch(isLetter, Concat(chunks), 0) <==> NothingShows(isLetter, EMPTY, chunks)
  {
    hide Finish;
    hide NothingShows;
    var text := Concat(chunks);
    BatchIsFinish(isLetter, text, 0);
    assert With(EMPTY, text) == Splitter(text, 0, 0) by { assert [] + text == text; }
    if chunks == [] {
      NothingLeft(isLetter, 0);
      NoCutsAtAll(isLetter);
    } else {
      CutsShow(isLetter, EMPTY, chunks);
    }
  }

  lemma NoCutsAtAll(isLetter: Rune -> bool)
    ensures NothingShows(isLetter, EMPTY, [])
  {
  }

  // Two chunks give the sentences of one exactly when the cut does not show.
  lemma TwoChunks(isLetter: Rune -> bool, a: Text, b: Text)
    ensures Stream(isLetter, [a, b]) == Stream(isLetter, [a + b]) <==> !Shows(isLetter, With(EMPTY, a), b)
  {
    hide Shows;
    CutShows(isLetter, EMPTY, a, b);
  }

  // ---- every chunking ----------------------------------------------------------------------------------------

  // Cutting text here, whatever was cut before, does not show.
  ghost predicate CutsAnywhere(isLetter: Rune -> bool, text: Text) {
    forall before: seq<Text>, a: Text, b: Text :: Concat(before) + a + b == text ==>
      !Shows(isLetter, With(PushAll(isLetter, EMPTY, before).0, a), b)
  }

  ghost predicate AllAgree(isLetter: Rune -> bool, text: Text) {
    forall chunks: seq<Text> :: Concat(chunks) == text ==> Stream(isLetter, chunks) == Batch(isLetter, text, 0)
  }

  // All chunkings of a text give the sentences of the batch splitter exactly when
  // no cut of it shows.
  lemma EveryChunkingAgrees(isLetter: Rune -> bool, text: Text)
    ensures AllAgree(isLetter, text) <==> CutsAnywhere(isLetter, text)
  {
    hide AllAgree;
    hide CutsAnywhere;
    if CutsAnywhere(isLetter, text) { UnseenMeansAgree(isLetter, text); }
    if AllAgree(isLetter, text) { AgreeMeansUnseen(isLetter, text); }
  }

  lemma UnseenMeansAgree(isLetter: Rune -> bool, text: Text)
    requires CutsAnywhere(isLetter, text)
    ensures AllAgree(isLetter, text)
  {
    hide CutsAnywhere;
    hide NothingShows;
    hide Stream;
    hide Batch;
    forall chunks: seq<Text> | Concat(chunks) == text ensures Stream(isLetter, chunks) == Batch(isLetter, text, 0) {
      assert [] + text == text;
      CutsUnseen(isLetter, text, [], chunks);
      assert PushAll(isLetter, EMPTY, []).0 == EMPTY;
      StreamIsBatch(isLetter, chunks);
    }
  }

  lemma AgreeMeansUnseen(isLetter: Rune -> bool, text: Text)
    requires AllAgree(isLetter, text)
    ensures CutsAnywhere(isLetter, text)
  {
    hide AllAgree;
    hide Shows;
    hide PushAll;
    forall before: seq<Text>, a: Text, b: Text | Concat(before) + a + b == text
      ensures !Shows(isLetter, With(PushAll(isLetter, EMPTY, before).0, a), b)
    {
      AgreeAtCut(isLetter, text, before, a, b);
    }
  }

  lemma AgreeAtCut(isLetter: Rune -> bool, text: Text, before: seq<Text>, a: Text, b: Text)
    requires AllAgree(isLetter, text) && Concat(before) + a + b == text
    ensures !Shows(isLetter, With(PushAll(isLetter, EMPTY, before).0, a), b)
  {
    hide Shows;
    hide PushAll;
    hide Stream;
    hide Rest;
    hide Batch;
    var s := PushAll(isLetter, EMPTY, before).0;
    ConcatAppend(before, [a, b]);
    ConcatAppend(before, [a + b]);
    ConcatTwo(a, b);
    assert Concat(before) + (a + b) == text;
    StreamIsRest(isLetter, before + [a, b]);
    StreamIsRest(isLetter, before + [a + b]);
    StreamAppend(isLetter, EMPTY, before, [a, b]);
    StreamAppend(isLetter, EMPTY, before, [a + b]);
    Cancel(PushAll(isLetter, EMPTY, before).1, Rest(isLetter, s, [a, b]), Rest(isLetter, s, [a + b]));
    CutShows(isLetter, s, a, b);
  }

  lemma Cancel(p: seq<Sentence>, x: seq<Sentence>, y: seq<Sentence>)
    ensures p + x == p + y ==> x == y
  {
    assert (p + x)[|p|..] == x && (p + y)[|p|..] == y;
  }

  lemma ConcatOne(a: Text)
    ensures Concat([a]) == a
  {
    var chunks := [a];
    assert chunks[1..] == [] && a + [] == a;
  }

  lemma ConcatTwo(a: Text, b: Text)
    ensures Concat([a, b]) == a + b && Concat([a + b]) == a + b
  {
    ConcatOne(b);
    ConcatOne(a + b);
    assert [a, b][1..] == [b];
  }

  lemma {:induction false} ConcatAppend(a: seq<Text>, b: seq<Text>)
    ensures Concat(a + b) == Concat(a) + Concat(b)
    decreases |a|
  {
    if a == [] {
      assert a + b == b;
    } else {
      assert (a + b)[1..] == a[1..] + b;
      ConcatAppend(a[1..], b);
    }
  }

  lemma {:induction false} StreamAppend(isLetter: Rune -> bool, s: Splitter, a: seq<Text>, b: seq<Text>)
    requires WellFormed(s)
    ensures Rest(isLetter, s, a + b) == PushAll(isLetter, s, a).1 + Rest(isLetter, PushAll(isLetter, s, a).0, b)
    decreases |a|
  {
    hide Push;
    hide Rest;
    if a == [] {
      assert a + b == b;
    } else {
      var (s1, out1) := Push(isLetter, s, a[0]);
      assert a + b == [a[0]] + (a[1..] + b);
      RestOfMore(isLetter, s, a[0], a[1..] + b);
      StreamAppend(isLetter, s1, a[1..], b);
      var (s2, out2) := PushAll(isLetter, s1, a[1..]);
      assert out1 + (out2 + Rest(isLetter, s2, b)) == (out1 + out2) + Rest(isLetter, s2, b);
    }
  }

  lemma {:induction false} CutsUnseen(isLetter: Rune -> bool, text: Text, before: seq<Text>, chunks: seq<Text>)
    requires CutsAnywhere(isLetter, text) && Concat(before) + Concat(chunks) == text
    ensures NothingShows(isLetter, PushAll(isLetter, EMPTY, before).0, chunks)
    decreases |chunks|
  {
    hide Shows;
    hide Push;
    if |chunks| > 1 {
      var s := PushAll(isLetter, EMPTY, before).0;
      assert Concat(before) + chunks[0] + Concat(chunks[1..]) == Concat(before) + Concat(chunks);
      PushAllSnoc(isLetter, EMPTY, before, chunks[0]);
      ConcatAppend(before, [chunks[0]]);
      ConcatOne(chunks[0]);
      CutsUnseen(isLetter, text, before + [chunks[0]], chunks[1..]);
    }
  }

  lemma {:induction false} PushAllSnoc(isLetter: Rune -> bool, s: Splitter, chunks: seq<Text>, chunk: Text)
    requires WellFormed(s)
    ensures PushAll(isLetter, s, chunks + [chunk]).0 == Push(isLetter, PushAll(isLetter, s, chunks).0, chunk).0
    decreases |chunks|
  {
    hide Push;
    if chunks == [] {
      assert [chunk][1..] == [] && chunks + [chunk] == [chunk];
    } else {
      assert (chunks + [chunk])[1..] == chunks[1..] + [chunk];
      PushAllSnoc(isLetter, Push(isLetter, s, chunks[0]).0, chunks[1..], chunk);
    }
  }

  // ---- the two ways to show ------------------------------------------------------------------------------------

  // A sentence of six runes or more that ends with the first chunk, in a run
  // that goes on: the stream ends it there, and no other chunking would.
  lemma EndedTooEarly(isLetter: Rune -> bool, a: Text, b: Text)
    requires StopsAtRun(isLetter, With(EMPTY, a)) && Split(isLetter, With(EMPTY, a)).0.buf == [] && GoesOn(b)
    ensures Stream(isLetter, [a, b]) != Stream(isLetter, [a + b])
  {
    hide StopsAtRun;
    hide Stream;
    TwoChunks(isLetter, a, b);
  }

  // One too short to end there that is long enough where its run ends, in the
  // middle of the text, and whose rest of the run ends nothing: the stream
  // misses an end that the batch splitter finds.
  lemma EndedTooLate(isLetter: Rune -> bool, a: Text, b: Text)
    requires StopsAtRun(isLetter, With(EMPTY, a)) && GoesOn(b)
    requires Missed(isLetter, Split(isLetter, With(EMPTY, a)).0.buf, b)
    ensures Stream(isLetter, [a, b]) != Stream(isLetter, [a + b])
  {
    hide StopsAtRun;
    hide Stream;
    TwoChunks(isLetter, a, b);
  }
}
