// What splitting before more text has come does to the sentences: it shows exactly
// when what is split ends in a run of terminators with a CJK terminator, the run
// goes on, and its sentence has ended too early or is going to be missed
// (internal/session/sentencer.go:33-112).
module SentenceCuts {
  import opened Utf8
  import opened Sentences
  import opened SentenceChunking

  // ---- everything that is left -----------------------------------------------------------------------

  function With(s: Splitter, more: Text): Splitter {
    s.(buf := s.buf + more)
  }

  // The sentences of what the splitter holds, the flushed one included.
  function Finish(isLetter: Rune -> bool, s: Splitter): seq<Sentence>
    requires WellFormed(s)
  {
    Split(isLetter, s).1 + Flush(Split(isLetter, s).0).1
  }

  // Where its first sentence ends.
  function CutEnd(isLetter: Rune -> bool, buf: Text, i: nat): nat
    requires i <= |buf|
  {
    match FirstCut(isLetter, buf, i)
    case None => |buf|
    case Some(end) => end
  }

  lemma {:induction false} FinishUnfolds(isLetter: Rune -> bool, s: Splitter)
    requires WellFormed(s) && s.buf != []
    ensures var end := CutEnd(isLetter, s.buf, s.scan);
            && 0 < end <= |s.buf|
            && Finish(isLetter, s) == [Take(s, end)] + Finish(isLetter, AfterTake(s, end))
    decreases |s.buf| - s.scan
  {
    hide Scan;
    hide RuneCount;
    match Scan(isLetter, s.buf, s.scan, s.scan)
    case More(scan) => NothingLeft(isLetter, s.base + |s.buf|);
    case Found(end) =>
      if RuneCount(s.buf[..end]) < MIN_SENTENCE_RUNES {
        FinishUnfolds(isLetter, s.(scan := end));
      } else {
        var s1 := AfterTake(s, end);
        var (s', more) := Split(isLetter, s1);
        assert [Take(s, end)] + more + Flush(s').1 == [Take(s, end)] + (more + Flush(s').1);
      }
  }

  lemma NothingLeft(isLetter: Rune -> bool, base: nat)
    ensures Split(isLetter, Splitter([], base, 0)) == (Splitter([], base, 0), [])
    ensures Finish(isLetter, Splitter([], base, 0)) == []
  {
  }

  // Two searches of one text give the same sentences exactly when they find the
  // same first end.
  lemma SameFinish(isLetter: Rune -> bool, s: Splitter, scan: nat)
    requires WellFormed(s) && scan <= |s.buf| && s.buf != []
    ensures Finish(isLetter, s) == Finish(isLetter, s.(scan := scan))
       <==> CutEnd(isLetter, s.buf, s.scan) == CutEnd(isLetter, s.buf, scan)
  {
    hide Finish;
    hide CutEnd;
    FinishUnfolds(isLetter, s);
    FinishUnfolds(isLetter, s.(scan := scan));
    var e1, e2 := CutEnd(isLetter, s.buf, s.scan), CutEnd(isLetter, s.buf, scan);
    if e1 != e2 {
      assert Finish(isLetter, s)[0].end == s.base + e1;
      assert Finish(isLetter, s.(scan := scan))[0].end == s.base + e2;
    }
  }

  // ---- the guard ---------------------------------------------------------------------------------------

  // Splitting what s holds stops at a boundary at its very end.
  predicate StopsAtRun(isLetter: Rune -> bool, s: Splitter)
    requires WellFormed(s)
    decreases |s.buf|, |s.buf| - s.scan
  {
    match Scan(isLetter, s.buf, s.scan, s.scan)
    case More(_) => false
    case Found(end) =>
      AtEndOfRun(s.buf, end)
      || (if RuneCount(s.buf[..end]) < MIN_SENTENCE_RUNES then StopsAtRun(isLetter, s.(scan := end))
          else StopsAtRun(isLetter, AfterTake(s, end)))
  }

  // The first terminator of the run text[from..to], or to.
  function FirstTerminator(text: Text, from: nat, upTo: nat): (t: nat)
    requires from <= upTo <= |text|
    ensures from <= t <= upTo
    decreases upTo - from
  {
    if from == upTo then upTo
    else
      var d := DecodeRune(text[from..]);
      if IsTerminator(d.rune) || from + d.size > upTo then from else FirstTerminator(text, from + d.size, upTo)
  }

  // The part of a run from from on would end a sentence without what is before.
  predicate EndsByItself(isLetter: Rune -> bool, text: Text, from: nat, upTo: nat)
    requires from <= upTo <= |text|
  {
    || CjkInRun(text[from..upTo])
    || (var t := FirstTerminator(text, from, upTo);
        t < upTo < |text| && IsSpace(DecodeRune(text[upTo..]).rune) && !IsAbbreviation(isLetter, text[..t]))
  }

  // The sentence was too short to end with buf, and is missed where its run
  // ends: by then it is long enough, but what is left of the run ends nothing.
  predicate Missed(isLetter: Rune -> bool, buf: Text, more: Text) {
    match EndOfRun(buf + more, |buf|)
    case Cut => false
    case Ends(j) =>
      && j < |buf + more|
      && RuneCount((buf + more)[..j]) >= MIN_SENTENCE_RUNES
      && !EndsByItself(isLetter, buf + more, |buf|, j)
  }

  // What s holds is split before more arrives, and that shows: the run at its
  // end goes on, and its sentence has ended already or is going to be missed.
  predicate Shows(isLetter: Rune -> bool, s: Splitter, more: Text)
    requires WellFormed(s)
  {
    && GoesOn(more)
    && StopsAtRun(isLetter, s)
    && (Split(isLetter, s).0.buf == [] || Missed(isLetter, Split(isLetter, s).0.buf, more))
  }

  // ---- inside a run ---------------------------------------------------------------------------------------

  // A search that starts in a run whose end is not in sight waits.
  lemma {:induction false} CutRunWaits(isLetter: Rune -> bool, text: Text, q: nat, entry: nat)
    requires entry <= q <= |text| && EndOfRun(text, q) == Cut
    ensures Scan(isLetter, text, q, entry).More?
    decreases |text| - q
  {
    hide DecodeRune;
    hide CutOff;
    if !CutOff(text[q..]) {
      var d := DecodeRune(text[q..]);
      if !IsTerminator(d.rune) {
        CutRunWaits(isLetter, text, q + d.size, entry);
      }
    }
  }

  // What a search finds that starts inside a run.
  lemma {:induction false} FromInsideRun(isLetter: Rune -> bool, text: Text, q: nat, j: nat, entry: nat)
    requires entry <= q <= j <= |text| && EndOfRun(text, q) == Ends(j)
    ensures Scan(isLetter, text, q, entry)
         == if EndsByItself(isLetter, text, q, j) then Found(j)
            else if j == |text| && FirstTerminator(text, q, j) < j then More(entry)
            else Scan(isLetter, text, j, entry)
    decreases j - q
  {
    hide DecodeRune;
    hide CutOff;
    hide IsAbbreviation;
    if q < j {
      var d := DecodeRune(text[q..]);
      RunStep(text, q, j);
      CjkStep(text, q, j);
      if !IsTerminator(d.rune) {
        FromInsideRun(isLetter, text, q + d.size, j, entry);
      }
    } else {
      assert text[q..j] == [];
    }
  }

  // One rune of a run.
  lemma RunStep(text: Text, q: nat, j: nat)
    requires q < j <= |text| && EndOfRun(text, q) == Ends(j)
    ensures !CutOff(text[q..]) && InRun(DecodeRune(text[q..]).rune)
    ensures q + DecodeRune(text[q..]).size <= j && EndOfRun(text, q + DecodeRune(text[q..]).size) == Ends(j)
  {
    hide DecodeRune;
    hide CutOff;
  }

  // The rune at q decodes the same inside the run and in the whole text.
  lemma CjkStep(text: Text, q: nat, j: nat)
    requires q < j <= |text| && EndOfRun(text, q) == Ends(j)
    ensures var d := DecodeRune(text[q..]);
            q + d.size <= j && CjkInRun(text[q..j]) == (IsCjkTerminator(d.rune) || CjkInRun(text[q + d.size..j]))
  {
    var d := DecodeRune(text[q..]);
    RunStep(text, q, j);
    RunRuneIsValid(text[q..]);
    PrefixDecodes(text[q..], j - q);
    assert text[q..][..j - q] == text[q..j];
    assert text[q..j][d.size..] == text[q + d.size..j];
  }

  lemma RunRuneIsValid(b: Text)
    requires b != [] && InRun(DecodeRune(b).rune)
    ensures !Invalid(DecodeRune(b))
  {
  }

  // ---- one cut -------------------------------------------------------------------------------------------

  // Searching from end on finds nothing before it.
  lemma CutsLater(isLetter: Rune -> bool, text: Text, q: nat)
    requires q < |text|
    ensures CutEnd(isLetter, text, q) > q
  {
  }

  // A search that passes over the run text[q..j] goes on from j.
  lemma PassedOver(isLetter: Rune -> bool, text: Text, q: nat, j: nat)
    requires q <= j <= |text| && SameEnd(Scan(isLetter, text, q, q), Scan(isLetter, text, j, q))
    ensures CutEnd(isLetter, text, q) == CutEnd(isLetter, text, j)
  {
    EntryIsIrrelevant(isLetter, text, j, q, j);
  }

  // The short case: the search resumes inside the run, where more takes it.
  lemma ShortCase(isLetter: Rune -> bool, buf: Text, more: Text, scan: nat)
    requires scan <= |buf| && Scan(isLetter, buf, scan, scan) == Found(|buf|) && AtEndOfRun(buf, |buf|)
    requires RuneCount(buf) < MIN_SENTENCE_RUNES && GoesOn(more)
    ensures CutEnd(isLetter, buf + more, |buf|) == CutEnd(isLetter, buf + more, scan) <==> !Missed(isLetter, buf, more)
  {
    hide Scan;
    hide EndOfRun;
    hide EndsByItself;
    hide RuneCount;
    hide GoesOn;
    var text, q := buf + more, |buf|;
    FoundMoves(isLetter, buf, more, scan, scan);
    match EndOfRun(text, q)
    case Cut =>
      CutRunWaits(isLetter, text, q, q);
    case Ends(j) =>
      FromInsideRun(isLetter, text, q, j, q);
      EndIsPast(text, q);
      if EndsByItself(isLetter, text, q, j) {
      } else if j == |text| && FirstTerminator(text, q, j) < j {
      } else {
        PassedOver(isLetter, text, q, j);
        if j < |text| { CutsLater(isLetter, text, j); }
      }
  }

  lemma EndIsPast(text: Text, q: nat)
    requires q <= |text| && EndOfRun(text, q).Ends?
    ensures q <= EndOfRun(text, q).at <= |text|
  {
  }

  // The long case: the sentence has ended with buf, but its run has not.
  lemma LongCase(isLetter: Rune -> bool, buf: Text, more: Text, scan: nat)
    requires scan <= |buf| && Scan(isLetter, buf, scan, scan) == Found(|buf|) && AtEndOfRun(buf, |buf|)
    requires GoesOn(more)
    ensures CutEnd(isLetter, buf + more, scan) > |buf|
  {
    hide Scan;
    hide EndOfRun;
    FoundMoves(isLetter, buf, more, scan, scan);
    assert (buf + more)[|buf|..] == more;
    RunMovesOn(buf, more);
  }

  lemma RunMovesOn(buf: Text, more: Text)
    requires GoesOn(more)
    ensures EndOfRun(buf + more, |buf|).Ends? ==> EndOfRun(buf + more, |buf|).at > |buf|
  {
    hide DecodeRune;
    hide CutOff;
    assert (buf + more)[|buf|..] == more;
  }

  lemma WithTake(s: Splitter, end: nat, more: Text)
    requires end <= |s.buf|
    ensures Take(With(s, more), end) == Take(s, end)
    ensures AfterTake(With(s, more), end) == With(AfterTake(s, end), more)
  {
    assert (s.buf + more)[..end] == s.buf[..end];
    assert (s.buf + more)[end..] == s.buf[end..] + more;
  }

  // Splitting what s holds before more arrives gives the sentences of having it
  // all at once exactly when it does not show.
  lemma {:induction false} OneCut(isLetter: Rune -> bool, s: Splitter, more: Text)
    requires WellFormed(s)
    ensures Split(isLetter, s).1 + Finish(isLetter, With(Split(isLetter, s).0, more)) == Finish(isLetter, With(s, more))
       <==> !Shows(isLetter, s, more)
    decreases |s.buf|, |s.buf| - s.scan
  {
    hide Scan;
    hide RuneCount;
    hide Finish;
    hide GoesOn;
    hide Missed;
    match Scan(isLetter, s.buf, s.scan, s.scan)
    case More(scan) => CutWaits(isLetter, s, more);
    case Found(end) =>
      if AtEndOfRun(s.buf, end) && GoesOn(more) {
        CutAtRun(isLetter, s, more);
      } else {
        FoundStays(isLetter, s.buf, more, s.scan, s.scan);
        WithTake(s, end, more);
        assert (s.buf + more)[..end] == s.buf[..end];
        if RuneCount(s.buf[..end]) < MIN_SENTENCE_RUNES {
          var s1 := s.(scan := end);
          OneCut(isLetter, s1, more);
          SkipsShort(isLetter, With(s, more), end);
        } else {
          var s1 := AfterTake(s, end);
          OneCut(isLetter, s1, more);
          TakesLong(isLetter, With(s, more), end);
          var (s', out) := Split(isLetter, s1);
          Cons(Take(s, end), out, Finish(isLetter, With(s', more)), Finish(isLetter, With(s1, more)));
        }
      }
  }

  lemma Cons(x: Sentence, a: seq<Sentence>, b: seq<Sentence>, c: seq<Sentence>)
    ensures ([x] + a) + b == [x] + c <==> a + b == c
  {
    assert ([x] + a) + b == [x] + (a + b);
    assert ([x] + (a + b))[1..] == a + b && ([x] + c)[1..] == c;
  }

  lemma SkipsShort(isLetter: Rune -> bool, s: Splitter, end: nat)
    requires WellFormed(s) && Scan(isLetter, s.buf, s.scan, s.scan) == Found(end)
    requires RuneCount(s.buf[..end]) < MIN_SENTENCE_RUNES
    ensures Finish(isLetter, s) == Finish(isLetter, s.(scan := end))
  {
    hide Scan;
  }

  lemma TakesLong(isLetter: Rune -> bool, s: Splitter, end: nat)
    requires WellFormed(s) && Scan(isLetter, s.buf, s.scan, s.scan) == Found(end)
    requires RuneCount(s.buf[..end]) >= MIN_SENTENCE_RUNES
    ensures Finish(isLetter, s) == [Take(s, end)] + Finish(isLetter, AfterTake(s, end))
  {
    hide Scan;
    hide RuneCount;
    var (s', more) := Split(isLetter, AfterTake(s, end));
    assert [Take(s, end)] + more + Flush(s').1 == [Take(s, end)] + (more + Flush(s').1);
  }

  // Nothing was found: the search resumes where it may.
  lemma CutWaits(isLetter: Rune -> bool, s: Splitter, more: Text)
    requires WellFormed(s) && Scan(isLetter, s.buf, s.scan, s.scan).More?
    ensures Split(isLetter, s).1 + Finish(isLetter, With(Split(isLetter, s).0, more)) == Finish(isLetter, With(s, more))
    ensures !Shows(isLetter, s, more)
  {
    hide Scan;
    hide Finish;
    var scan := Scan(isLetter, s.buf, s.scan, s.scan).scan;
    var t := With(s, more);
    assert With(Split(isLetter, s).0, more) == t.(scan := scan);
    assert [] + Finish(isLetter, t.(scan := scan)) == Finish(isLetter, t.(scan := scan));
    if t.buf != [] {
      SavedScanResumes(isLetter, s.buf, more, s.scan);
      SameFinish(isLetter, t, scan);
    } else {
      assert scan == s.scan;
    }
  }

  // The boundary found is the end of a run that goes on.
  lemma CutAtRun(isLetter: Rune -> bool, s: Splitter, more: Text)
    requires WellFormed(s) && GoesOn(more)
    requires Scan(isLetter, s.buf, s.scan, s.scan) == Found(|s.buf|) && AtEndOfRun(s.buf, |s.buf|)
    ensures Split(isLetter, s).1 + Finish(isLetter, With(Split(isLetter, s).0, more)) == Finish(isLetter, With(s, more))
       <==> !Shows(isLetter, s, more)
  {
    hide Scan;
    hide RuneCount;
    hide Finish;
    hide Missed;
    var end := |s.buf|;
    var t := With(s, more);
    assert s.buf[..end] == s.buf;
    if RuneCount(s.buf) < MIN_SENTENCE_RUNES {
      StopsHere(isLetter, s);
      assert [] + Finish(isLetter, t.(scan := end)) == Finish(isLetter, t.(scan := end));
      SameFinish(isLetter, t, end);
      ShortCase(isLetter, s.buf, more, s.scan);
    } else {
      NothingLeft(isLetter, s.base + end);
      assert s.buf[end..] == [];
      assert Split(isLetter, s) == (Splitter([], s.base + end, 0), [Take(s, end)] + []);
      LongCase(isLetter, s.buf, more, s.scan);
      FinishUnfolds(isLetter, t);
      assert Finish(isLetter, t)[0].end == s.base + CutEnd(isLetter, t.buf, t.scan);
      var early := Split(isLetter, s).1 + Finish(isLetter, With(Split(isLetter, s).0, more));
      assert early[0] == Take(s, end);
    }
  }

  lemma StopsHere(isLetter: Rune -> bool, s: Splitter)
    requires WellFormed(s) && s.buf != [] && Scan(isLetter, s.buf, s.scan, s.scan) == Found(|s.buf|)
    requires RuneCount(s.buf) < MIN_SENTENCE_RUNES
    ensures Split(isLetter, s) == (s.(scan := |s.buf|), [])
  {
    hide RuneCount;
    assert s.buf[..|s.buf|] == s.buf;
    assert Scan(isLetter, s.buf, |s.buf|, |s.buf|) == More(|s.buf|);
  }
}
