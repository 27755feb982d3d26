// What more text does to the boundaries the sentence splitter has found, and the
// batch splitter that sees the whole text (internal/session/sentencer.go:33-112).
module SentenceChunking {
  import opened Utf8
  import opened Sentences

  datatype Option<T> = None | Some(value: T)

  // Where the first sentence of buf ends, searching from i: boundaries that
  // would leave fewer than six runes are passed over.
  function FirstCut(isLetter: Rune -> bool, buf: Text, i: nat): (r: Option<nat>)
    requires i <= |buf|
    ensures r.Some? ==> i < r.value <= |buf|
    decreases |buf| - i
  {
    match Scan(isLetter, buf, i, i)
    case More(_) => None
    case Found(end) =>
      if RuneCount(buf[..end]) < MIN_SENTENCE_RUNES then FirstCut(isLetter, buf, end) else Some(end)
  }

  // The batch splitter: it sees the whole text and keeps no scan position.
  function Batch(isLetter: Rune -> bool, text: Text, base: nat): seq<Sentence>
    decreases |text|
  {
    match FirstCut(isLetter, text, 0)
    case None => if text == [] then [] else [Sentence(text, base, base + |text|)]
    case Some(end) => [Sentence(text[..end], base, base + end)] + Batch(isLetter, text[end..], base + end)
  }

  // ---- more text does not change what was decided --------------------------------

  lemma StableRune(buf: Text, more: Text, i: nat)
    requires i < |buf| && !CutOff(buf[i..])
    ensures !CutOff((buf + more)[i..])
    ensures DecodeRune((buf + more)[i..]) == DecodeRune(buf[i..])
  {
    assert (buf + more)[i..] == buf[i..] + more;
    if !Invalid(DecodeRune(buf[i..])) {
      ValidRuneIsFull(buf[i..]);
    }
    FullRuneIsStable(buf[i..], more);
  }

  lemma {:induction false} RunEndsAtRune(buf: Text, j: nat)
    requires j <= |buf| && EndOfRun(buf, j).Ends? && EndOfRun(buf, j).at < |buf|
    ensures !CutOff(buf[EndOfRun(buf, j).at..])
    decreases |buf| - j
  {
    hide DecodeRune;
    hide CutOff;
    var d := DecodeRune(buf[j..]);
    if IsTerminator(d.rune) || IsClosingQuote(d.rune) {
      RunEndsAtRune(buf, j + d.size);
    }
  }

  predicate InRun(r: Rune) {
    IsTerminator(r) || IsClosingQuote(r)
  }

  // A run of terminators and closing quotes that ends here goes on into more,
  // or more begins inside a rune that might.
  predicate GoesOn(more: Text) {
    more != [] && (CutOff(more) || InRun(DecodeRune(more).rune))
  }

  lemma {:induction false} StableRun(buf: Text, more: Text, j: nat)
    requires j <= |buf| && EndOfRun(buf, j).Ends? && (EndOfRun(buf, j).at < |buf| || !GoesOn(more))
    ensures EndOfRun(buf + more, j) == EndOfRun(buf, j)
    decreases |buf| - j
  {
    hide DecodeRune;
    hide CutOff;
    if j == |buf| {
      assert (buf + more)[j..] == more;
    } else {
      StableRune(buf, more, j);
      var d := DecodeRune(buf[j..]);
      if InRun(d.rune) {
        StableRun(buf, more, j + d.size);
      }
    }
  }

  // A run that reaches the end of buf goes on where more takes it.
  lemma {:induction false} RunGoesOn(buf: Text, more: Text, j: nat)
    requires j <= |buf| && EndOfRun(buf, j) == Ends(|buf|)
    ensures EndOfRun(buf + more, j) == EndOfRun(buf + more, |buf|)
    decreases |buf| - j
  {
    hide DecodeRune;
    hide CutOff;
    if j < |buf| {
      StableRune(buf, more, j);
      RunGoesOn(buf, more, j + DecodeRune(buf[j..]).size);
    }
  }

  lemma {:induction false} CjkStays(buf: Text, more: Text, i: nat, j: nat)
    requires i <= |buf| && EndOfRun(buf, i) == Ends(|buf|) && CjkInRun(buf[i..|buf|])
    requires |buf| <= j <= |buf + more|
    ensures CjkInRun((buf + more)[i..j])
    decreases |buf| - i
  {
    hide DecodeRune;
    hide CutOff;
    if i < |buf| {
      var d := DecodeRune(buf[i..]);
      assert buf[i..|buf|] == buf[i..];
      StableRune(buf[i..], (buf + more)[|buf|..j], 0);
      assert buf[i..][0..] == buf[i..];
      assert (buf[i..] + (buf + more)[|buf|..j])[0..] == (buf + more)[i..j];
      if !IsCjkTerminator(d.rune) {
        assert buf[i..][d.size..] == buf[i + d.size..|buf|];
        assert (buf + more)[i..j][d.size..] == (buf + more)[i + d.size..j];
        CjkStays(buf, more, i + d.size, j);
      }
    }
  }

  // The last byte of a newline is a newline, and of nothing else.
  lemma LastByte(b: Text)
    requires b != [] && DecodeRune(b).rune != 0x0A
    ensures b[DecodeRune(b).size - 1] != 0x0A
  {
  }

  lemma {:induction false} RunIsNoNewline(buf: Text, j: nat)
    requires 0 < j <= |buf| && buf[j - 1] != 0x0A && EndOfRun(buf, j).Ends?
    ensures buf[EndOfRun(buf, j).at - 1] != 0x0A
    decreases |buf| - j
  {
    hide DecodeRune;
    hide CutOff;
    if j < |buf| && InRun(DecodeRune(buf[j..]).rune) {
      LastByte(buf[j..]);
      RunIsNoNewline(buf, j + DecodeRune(buf[j..]).size);
    }
  }

  // ---- boundaries --------------------------------------------------------------------------------

  // The boundary is the end of buf, and no newline made it: a run with a CJK
  // terminator did.
  predicate AtEndOfRun(buf: Text, end: nat) {
    0 < end == |buf| && buf[end - 1] != 0x0A
  }

  // Any other boundary stays where it is, and so does that one unless its run
  // goes on.
  lemma {:induction false} FoundStays(isLetter: Rune -> bool, buf: Text, more: Text, i: nat, entry: nat)
    requires entry <= i <= |buf| && Scan(isLetter, buf, i, entry).Found?
    requires AtEndOfRun(buf, Scan(isLetter, buf, i, entry).end) ==> !GoesOn(more)
    ensures Scan(isLetter, buf + more, i, entry) == Scan(isLetter, buf, i, entry)
    decreases |buf| - i
  {
    hide DecodeRune;
    hide CutOff;
    hide IsAbbreviation;
    hide CjkInRun;
    hide EndOfRun;
    hide GoesOn;
    StableRune(buf, more, i);
    var d := DecodeRune(buf[i..]);
    if d.rune != 0x0A {
      if !IsTerminator(d.rune) {
        FoundStays(isLetter, buf, more, i + d.size, entry);
      } else {
        RunFoundStays(isLetter, buf, more, i, entry);
      }
    }
  }

  lemma RunFoundStays(isLetter: Rune -> bool, buf: Text, more: Text, i: nat, entry: nat)
    requires entry <= i < |buf| && Scan(isLetter, buf, i, entry).Found?
    requires AtEndOfRun(buf, Scan(isLetter, buf, i, entry).end) ==> !GoesOn(more)
    requires !CutOff(buf[i..]) && DecodeRune(buf[i..]).rune != 0x0A && IsTerminator(DecodeRune(buf[i..]).rune)
    ensures Scan(isLetter, buf + more, i, entry) == Scan(isLetter, buf, i, entry)
    decreases |buf| - i, 0
  {
    hide DecodeRune;
    hide CutOff;
    hide IsAbbreviation;
    hide CjkInRun;
    hide EndOfRun;
    hide GoesOn;
    StableRune(buf, more, i);
    var next := i + DecodeRune(buf[i..]).size;
    var j := EndOfRun(buf, next).at;
    LastByte(buf[i..]);
    RunIsNoNewline(buf, next);
    StableRun(buf, more, next);
    assert (buf + more)[..i] == buf[..i];
    assert (buf + more)[i..j] == buf[i..j];
    if j < |buf| {
      RunEndsAtRune(buf, next);
      StableRune(buf, more, j);
      if Scan(isLetter, buf, i, entry) == Scan(isLetter, buf, j, entry) {
        FoundStays(isLetter, buf, more, j, entry);
      }
    }
  }

  // A boundary at the end of buf whose run goes on moves to the end of the run,
  // or waits with it.
  lemma {:induction false} FoundMoves(isLetter: Rune -> bool, buf: Text, more: Text, i: nat, entry: nat)
    requires entry <= i <= |buf| && Scan(isLetter, buf, i, entry) == Found(|buf|) && AtEndOfRun(buf, |buf|)
    ensures Scan(isLetter, buf + more, i, entry)
         == match EndOfRun(buf + more, |buf|) case Cut => More(entry) case Ends(j) => Found(j)
    decreases |buf| - i
  {
    hide DecodeRune;
    hide CutOff;
    hide IsAbbreviation;
    hide CjkInRun;
    hide EndOfRun;
    StableRune(buf, more, i);
    var d := DecodeRune(buf[i..]);
    LastNewline(buf, i);
    if !IsTerminator(d.rune) {
      FoundMoves(isLetter, buf, more, i + d.size, entry);
    } else {
      var j := EndOfRun(buf, i + d.size).at;
      if j < |buf| {
        RunEndsAtRune(buf, i + d.size);
        StableRun(buf, more, i + d.size);
        StableRune(buf, more, j);
        assert (buf + more)[..i] == buf[..i];
        assert (buf + more)[i..j] == buf[i..j];
        FoundMoves(isLetter, buf, more, j, entry);
      } else {
        RunMoves(buf, more, i);
      }
    }
  }

  // The newline that ends buf is read as one.
  lemma LastNewline(buf: Text, i: nat)
    requires i < |buf| && buf[|buf| - 1] != 0x0A
    ensures DecodeRune(buf[i..]).rune == 0x0A ==> i + DecodeRune(buf[i..]).size < |buf|
  {
  }

  // A run with a CJK terminator that reaches the end of buf.
  lemma RunMoves(buf: Text, more: Text, i: nat)
    requires i < |buf| && !CutOff(buf[i..])
    requires EndOfRun(buf, i + DecodeRune(buf[i..]).size) == Ends(|buf|)
    ensures var next := i + DecodeRune(buf[i..]).size;
            EndOfRun(buf + more, next) == EndOfRun(buf + more, |buf|)
    ensures forall j ::
              |buf| <= j <= |buf + more| && (IsCjkTerminator(DecodeRune(buf[i..]).rune) || CjkInRun(buf[i..|buf|])) ==>
              IsCjkTerminator(DecodeRune(buf[i..]).rune) || CjkInRun((buf + more)[i..j])
  {
    hide DecodeRune;
    hide CutOff;
    hide EndOfRun;
    var d := DecodeRune(buf[i..]);
    var next := i + d.size;
    RunGoesOn(buf, more, next);
    forall j | |buf| <= j <= |buf + more| && !IsCjkTerminator(d.rune) && CjkInRun(buf[i..|buf|])
      ensures CjkInRun((buf + more)[i..j])
    {
      assert buf[i..|buf|] == buf[i..] && buf[i..][d.size..] == buf[next..|buf|];
      CjkStays(buf, more, next, j);
      CjkFirst(buf, more, i, j);
    }
  }

  lemma CjkFirst(buf: Text, more: Text, i: nat, j: nat)
    requires i < |buf| <= j <= |buf + more| && !CutOff(buf[i..])
    requires CjkInRun((buf + more)[i + DecodeRune(buf[i..]).size..j])
    ensures CjkInRun((buf + more)[i..j])
  {
    hide DecodeRune;
    hide CutOff;
    var d := DecodeRune(buf[i..]);
    var x := (buf + more)[|buf|..j];
    StableRune(buf[i..], x, 0);
    assert buf[i..][0..] == buf[i..];
    assert (buf[i..] + x)[0..] == (buf + more)[i..j];
    assert (buf + more)[i..j][d.size..] == (buf + more)[i + d.size..j];
  }

  ghost predicate SameEnd(a: Search, b: Search) {
    a.Found? == b.Found? && (a.Found? ==> a.end == b.end)
  }

  // The entry position only matters when nothing is found.
  lemma {:induction false} EntryIsIrrelevant(isLetter: Rune -> bool, buf: Text, i: nat, e1: nat, e2: nat)
    requires e1 <= i && e2 <= i && i <= |buf|
    ensures SameEnd(Scan(isLetter, buf, i, e1), Scan(isLetter, buf, i, e2))
    decreases |buf| - i
  {
    hide DecodeRune;
    if i < |buf| && !CutOff(buf[i..]) {
      var d := DecodeRune(buf[i..]);
      if !IsTerminator(d.rune) {
        EntryIsIrrelevant(isLetter, buf, i + d.size, e1, e2);
      } else {
        var r := EndOfRun(buf, i + d.size);
        if r.Ends? && r.at < |buf| {
          EntryIsIrrelevant(isLetter, buf, r.at, e1, e2);
        }
      }
    }
  }

  // When the scan ran off the end of buf, resuming there finds the same.
  lemma {:induction false} ResumeAtEnd(isLetter: Rune -> bool, buf: Text, more: Text, i: nat, entry: nat)
    requires entry <= i <= |buf| && entry < |buf|
    requires Scan(isLetter, buf, i, entry) == More(|buf|)
    ensures SameEnd(Scan(isLetter, buf + more, i, entry), Scan(isLetter, buf + more, |buf|, |buf|))
    decreases |buf| - i
  {
    hide DecodeRune;
    hide CutOff;
    hide IsAbbreviation;
    hide CjkInRun;
    hide EndOfRun;
    if i == |buf| {
      EntryIsIrrelevant(isLetter, buf + more, i, entry, |buf|);
    } else {
      StableRune(buf, more, i);
      var d := DecodeRune(buf[i..]);
      if !IsTerminator(d.rune) {
        ResumeAtEnd(isLetter, buf, more, i + d.size, entry);
      } else {
        var j := EndOfRun(buf, i + d.size).at;
        RunEndsAtRune(buf, i + d.size);
        StableRun(buf, more, i + d.size);
        StableRune(buf, more, j);
        assert (buf + more)[..i] == buf[..i];
        assert (buf + more)[i..j] == buf[i..j];
        ResumeAtEnd(isLetter, buf, more, j, entry);
      }
    }
  }

  lemma {:induction false} MoreIsEntryOrEnd(isLetter: Rune -> bool, buf: Text, i: nat, entry: nat)
    requires entry <= i <= |buf| && Scan(isLetter, buf, i, entry).More?
    ensures Scan(isLetter, buf, i, entry).scan in {entry, |buf|}
    decreases |buf| - i
  {
    hide DecodeRune;
    if i < |buf| && !CutOff(buf[i..]) {
      var d := DecodeRune(buf[i..]);
      if !IsTerminator(d.rune) {
        MoreIsEntryOrEnd(isLetter, buf, i + d.size, entry);
      } else {
        var r := EndOfRun(buf, i + d.size);
        if r.Ends? && r.at < |buf| {
          MoreIsEntryOrEnd(isLetter, buf, r.at, entry);
        }
      }
    }
  }

  // The saved scan position is as good as the one the search started from.
  lemma SavedScanResumes(isLetter: Rune -> bool, buf: Text, more: Text, scan: nat)
    requires scan <= |buf| && Scan(isLetter, buf, scan, scan).More?
    ensures FirstCut(isLetter, buf + more, Scan(isLetter, buf, scan, scan).scan) == FirstCut(isLetter, buf + more, scan)
  {
    MoreIsEntryOrEnd(isLetter, buf, scan, scan);
    if Scan(isLetter, buf, scan, scan).scan != scan {
      ResumeAtEnd(isLetter, buf, more, scan, scan);
    }
  }
}
