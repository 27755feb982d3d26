// Sentences end between runes: whatever text is still to come, no sentence that
// push returns cuts a rune in two (internal/session/sentencer.go:33-112).
module SentenceBoundaries {
  import opened Utf8
  import opened Sentences
  import opened SentenceChunking

  // k is between two runes of text, and stays so whatever is appended.
  ghost predicate Settled(text: Text, k: nat) {
    forall more: Text :: Boundary(text + more, k)
  }

  lemma SettledExtends(text: Text, more: Text, k: nat)
    requires Settled(text, k)
    ensures Settled(text + more, k)
  {
    forall rest: Text ensures Boundary(text + more + rest, k) {
      assert text + more + rest == text + (more + rest);
    }
  }

  lemma SettledIsBoundary(text: Text, k: nat)
    requires Settled(text, k)
    ensures Boundary(text, k)
  {
    assert text + [] == text;
  }

  lemma SettledShift(text: Text, base: nat, k: nat)
    requires base <= |text| && Settled(text, base) && Settled(text[base..], k)
    ensures Settled(text, base + k)
  {
    forall more: Text ensures Boundary(text + more, base + k) {
      assert (text + more)[base..] == text[base..] + more;
      BoundaryShift(text + more, base, k);
    }
  }

  lemma NextIsSettled(buf: Text, i: nat)
    requires i < |buf| && Settled(buf, i) && !CutOff(buf[i..])
    ensures Settled(buf, i + DecodeRune(buf[i..]).size)
  {
    hide DecodeRune;
    hide CutOff;
    var n := DecodeRune(buf[i..]).size;
    forall more: Text ensures Boundary(buf + more, i + n) {
      StableRune(buf, more, i);
      assert Boundary((buf + more)[i..], n);
      BoundaryShift(buf + more, i, n);
    }
  }

  lemma {:induction false} RunIsSettled(buf: Text, j: nat)
    requires j <= |buf| && Settled(buf, j)
    ensures EndOfRun(buf, j).Ends? ==> Settled(buf, EndOfRun(buf, j).at)
    decreases |buf| - j
  {
    hide DecodeRune;
    hide CutOff;
    hide Settled;
    if j < |buf| && !CutOff(buf[j..]) {
      var d := DecodeRune(buf[j..]);
      NextIsSettled(buf, j);
      if IsTerminator(d.rune) || IsClosingQuote(d.rune) {
        RunIsSettled(buf, j + d.size);
      }
    }
  }

  // The place a search stops at: the end it found, or where to resume.
  function StopOf(r: Search): nat {
    match r
    case Found(end) => end
    case More(scan) => scan
  }

  lemma {:induction false} ScanIsSettled(isLetter: Rune -> bool, buf: Text, i: nat, entry: nat)
    requires entry <= i <= |buf| && Settled(buf, i) && Settled(buf, entry)
    ensures Settled(buf, StopOf(Scan(isLetter, buf, i, entry)))
    decreases |buf| - i
  {
    hide DecodeRune;
    hide CutOff;
    hide IsAbbreviation;
    hide CjkInRun;
    hide EndOfRun;
    hide Settled;
    if i < |buf| && !CutOff(buf[i..]) {
      var d := DecodeRune(buf[i..]);
      NextIsSettled(buf, i);
      var next := i + d.size;
      if d.rune != 0x0A {
        if !IsTerminator(d.rune) {
          ScanIsSettled(isLetter, buf, next, entry);
        } else {
          RunIsSettled(buf, next);
          match EndOfRun(buf, next)
          case Cut =>
          case Ends(j) => ScanIsSettled(isLetter, buf, j, entry);
        }
      }
    }
  }

  // The splitter stands between runes of text, and so does its search.
  ghost predicate OnRunes(s: Splitter, text: Text) {
    Holds(s, text) && Settled(text, s.base) && Settled(s.buf, s.scan)
  }

  ghost predicate EndsSettled(ss: seq<Sentence>, text: Text) {
    forall i :: 0 <= i < |ss| ==> Settled(text, ss[i].end)
  }

  lemma ZeroIsSettled(text: Text)
    ensures Settled(text, 0)
  {
  }

  lemma {:induction false} SplitIsSettled(isLetter: Rune -> bool, s: Splitter, text: Text)
    requires OnRunes(s, text)
    ensures var (s', ss) := Split(isLetter, s);
            OnRunes(s', text) && EndsSettled(ss, text)
    decreases |s.buf|, |s.buf| - s.scan
  {
    hide Scan;
    hide Settled;
    hide RuneCount;
    ScanIsSettled(isLetter, s.buf, s.scan, s.scan);
    match Scan(isLetter, s.buf, s.scan, s.scan)
    case More(scan) =>
    case Found(end) =>
      if RuneCount(s.buf[..end]) < MIN_SENTENCE_RUNES {
        SplitIsSettled(isLetter, s.(scan := end), text);
      } else {
        var s1 := AfterTake(s, end);
        SettledShift(text, s.base, end);
        ZeroIsSettled(s1.buf);
        SplitIsSettled(isLetter, s1, text);
      }
  }

  // Every sentence that push returns ends between two runes of the whole text,
  // whatever comes after the chunk.
  lemma PushIsSettled(isLetter: Rune -> bool, s: Splitter, chunk: Text, before: Text)
    requires OnRunes(s, before)
    ensures var (s', ss) := Push(isLetter, s, chunk);
            OnRunes(s', before + chunk) && EndsSettled(ss, before + chunk)
  {
    hide Split;
    hide Settled;
    var s1 := s.(buf := s.buf + chunk);
    assert s1.buf == (before + chunk)[s.base..];
    SettledExtends(before, chunk, s.base);
    SettledExtends(s.buf, chunk, s.scan);
    SplitIsSettled(isLetter, s1, before + chunk);
  }
}
