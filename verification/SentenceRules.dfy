// Where a sentence ends, told on runes: what the scan over the bytes of a text finds in
// terms of the characters it is made of (internal/session/sentencer.go:49-170).
module SentenceRules {
  import opened Utf8
  import opened Sentences

  // ---- the characters ------------------------------------------------------------------------------------

  function Ascii(s: string): Text
    requires forall i :: 0 <= i < |s| ==> s[i] as int < 128
  {
    seq(|s|, i requires 0 <= i < |s| => s[i] as int)
  }

  // Full stop, exclamation and question mark, in Latin and in CJK; the quotes and
  // brackets that may close a sentence behind them.
  lemma Characters(r: Rune)
    ensures IsTerminator(r) <==>
              r in ['.' as int, '!' as int, '?' as int, '\U{3002}' as int, '\U{FF01}' as int, '\U{FF1F}' as int]
    ensures IsCjkTerminator(r) <==> r in ['\U{3002}' as int, '\U{FF01}' as int, '\U{FF1F}' as int]
    ensures IsClosingQuote(r) <==>
              r in ['"' as int, '\'' as int, ')' as int, '\U{201D}' as int, '\U{2019}' as int, '\U{300D}' as int,
                    '\U{300F}' as int]
  {
  }

  // The titles that end in a full stop without ending a sentence, in any case.
  lemma Titles(word: Text)
    ensures KnownAbbreviation(word) <==>
              LowerAll(word) in [Ascii("mr"), Ascii("mrs"), Ascii("ms"), Ascii("dr"), Ascii("st"), Ascii("prof"),
                                 Ascii("vs")]
    ensures LowerAll(Ascii("Mrs")) == LowerAll(Ascii("MRS")) == Ascii("mrs")
  {
    assert Ascii("mr") == [0x6D, 0x72] && Ascii("mrs") == [0x6D, 0x72, 0x73] && Ascii("ms") == [0x6D, 0x73];
    assert Ascii("dr") == [0x64, 0x72] && Ascii("st") == [0x73, 0x74] && Ascii("vs") == [0x76, 0x73];
    assert Ascii("prof") == [0x70, 0x72, 0x6F, 0x66];
  }

  // ---- one character -------------------------------------------------------------------------------------

  // r stands behind front in the text of front, r and rest.
  lemma Stands(front: seq<Rune>, r: Rune, rest: seq<Rune>)
    requires Scalar(r)
    ensures var b := Encode(front + [r] + rest);
            var i := |Encode(front)|;
            && i < |b| && DecodeRune(b[i..]) == Decoded(r, |EncodeRune(r)|) && !CutOff(b[i..])
            && |Encode(front + [r])| == i + |EncodeRune(r)| <= |b|
            && b[..i] == Encode(front)
  {
    hide EncodeRune;
    hide DecodeRune;
    hide Encode;
    EncodeAppend(front + [r], rest);
    EncodeAppend(front, [r]);
    EncodeOne(r);
    DecodeEncoded(r, Encode(rest));
    EncodedIsWhole(r);
    var b := Encode(front + [r] + rest);
    assert b[|Encode(front)|..] == EncodeRune(r) + Encode(rest);
  }

  // The text ends behind all of it.
  lemma EndsThere(rs: seq<Rune>, rest: seq<Rune>)
    ensures |Encode(rs)| <= |Encode(rs + rest)| && Encode(rs + rest)[..|Encode(rs)|] == Encode(rs)
    ensures rest == [] ==> |Encode(rs)| == |Encode(rs + rest)|
  {
    hide Encode;
    EncodeAppend(rs, rest);
    if rest == [] { assert rs + rest == rs; }
  }

  predicate Plain(r: Rune) {
    r != 0x0A && !IsTerminator(r)
  }

  predicate InRun(r: Rune) {
    IsTerminator(r) || IsClosingQuote(r)
  }

  // ---- plain text ----------------------------------------------------------------------------------------

  // Nothing in plain text ends a sentence.
  lemma {:induction false} PlainIsPassed(isLetter: Rune -> bool, front: seq<Rune>, plain: seq<Rune>, rest: seq<Rune>,
                                         entry: nat)
    requires Scalars(plain) && entry <= |Encode(front)| && forall k :: 0 <= k < |plain| ==> Plain(plain[k])
    ensures var b := Encode(front + plain + rest);
            && |Encode(front)| <= |Encode(front + plain)| <= |b|
            && Scan(isLetter, b, |Encode(front)|, entry) == Scan(isLetter, b, |Encode(front + plain)|, entry)
    decreases |plain|
  {
    hide Encode;
    hide DecodeRune;
    hide EncodeRune;
    hide IsTerminator;
    hide CutOff;
    if plain == [] {
      assert front + plain == front;
      EndsThere(front, rest);
    } else {
      var r, more := plain[0], plain[1..];
      assert front + [r] + (more + rest) == front + plain + rest;
      Stands(front, r, more + rest);
      assert front + [r] + more == front + plain;
      PlainIsPassed(isLetter, front + [r], more, rest, entry);
      assert Plain(r);
    }
  }

  // Text that is all plain is passed to its end.
  lemma PlainHasNoEnd(isLetter: Rune -> bool, plain: seq<Rune>)
    requires Scalars(plain) && forall k :: 0 <= k < |plain| ==> Plain(plain[k])
    ensures Scan(isLetter, Encode(plain), 0, 0) == More(|Encode(plain)|)
  {
    PlainIsPassed(isLetter, [], plain, [], 0);
    assert [] + plain + [] == plain && [] + plain == plain;
  }

  // A line ends a sentence, and belongs to it.
  lemma NewlineEnds(isLetter: Rune -> bool, front: seq<Rune>, plain: seq<Rune>, rest: seq<Rune>, entry: nat)
    requires Scalars(plain) && entry <= |Encode(front)| && forall k :: 0 <= k < |plain| ==> Plain(plain[k])
    ensures |Encode(front)| <= |Encode(front + plain + [0x0A] + rest)|
    ensures Scan(isLetter, Encode(front + plain + [0x0A] + rest), |Encode(front)|, entry)
            == Found(|Encode(front + plain)| + 1)
  {
    hide Encode;
    PlainIsPassed(isLetter, front, plain, [0x0A] + rest, entry);
    assert front + plain + ([0x0A] + rest) == front + plain + [0x0A] + rest;
    Stands(front + plain, 0x0A, rest);
  }

  // ---- runs ------------------------------------------------------------------------------------------------

  lemma {:induction false} RunEndsThere(front: seq<Rune>, run: seq<Rune>, rest: seq<Rune>)
    requires Scalars(run) && Scalars(rest) && forall k :: 0 <= k < |run| ==> InRun(run[k])
    requires rest != [] ==> !InRun(rest[0])
    ensures |Encode(front)| <= |Encode(front + run + rest)|
    ensures EndOfRun(Encode(front + run + rest), |Encode(front)|) == Ends(|Encode(front + run)|)
    decreases |run|
  {
    hide Encode;
    hide DecodeRune;
    hide EncodeRune;
    hide CutOff;
    hide IsTerminator;
    hide IsClosingQuote;
    if run == [] {
      assert front + run == front;
      EndsThere(front, rest);
      if rest != [] {
        assert front + [rest[0]] + rest[1..] == front + rest;
        Stands(front, rest[0], rest[1..]);
      }
    } else {
      var r, more := run[0], run[1..];
      assert front + [r] + (more + rest) == front + run + rest && front + [r] + more == front + run;
      Stands(front, r, more + rest);
      assert front + [r] + more + rest == front + run + rest;
      assert InRun(r);
      RunEndsThere(front + [r], more, rest);
    }
  }

  ghost predicate HasCjk(run: seq<Rune>) {
    exists k :: 0 <= k < |run| && IsCjkTerminator(run[k])
  }

  lemma {:induction false} CjkIsSeen(run: seq<Rune>)
    requires Scalars(run)
    ensures CjkInRun(Encode(run)) <==> HasCjk(run)
  {
    hide DecodeRune;
    hide EncodeRune;
    hide IsCjkTerminator;
    if run != [] {
      var r, more := run[0], run[1..];
      DecodeEncoded(r, Encode(more));
      EncodedIsWhole(r);
      assert Encode(run)[|EncodeRune(r)|..] == Encode(more);
      CjkIsSeen(more);
      if HasCjk(more) {
        var k :| 0 <= k < |more| && IsCjkTerminator(more[k]);
        assert run[k + 1] == more[k];
      }
      if HasCjk(run) && !IsCjkTerminator(r) {
        var k :| 0 <= k < |run| && IsCjkTerminator(run[k]);
        assert more[k - 1] == run[k];
      }
    }
  }

  // What the scan decides at a run: Found behind it, More, or on from there.
  ghost function Decided(isLetter: Rune -> bool, before: seq<Rune>, run: seq<Rune>, rest: seq<Rune>, entry: nat): Search
    requires entry <= |Encode(before + run)| <= |Encode(before + run + rest)|
  {
    var end := |Encode(before + run)|;
    if HasCjk(run) then Found(end)
    else if rest == [] then More(entry)
    else if IsSpace(rest[0]) && !IsAbbreviation(isLetter, Encode(before)) then Found(end)
    else Scan(isLetter, Encode(before + run + rest), end, entry)
  }

  lemma ScanAtRun(isLetter: Rune -> bool, before: seq<Rune>, run: seq<Rune>, rest: seq<Rune>, entry: nat)
    requires Scalars(run) && Scalars(rest) && entry <= |Encode(before)|
    requires run != [] && IsTerminator(run[0]) && forall k :: 0 <= k < |run| ==> InRun(run[k])
    requires rest != [] ==> !InRun(rest[0])
    ensures |Encode(before)| <= |Encode(before + run)| <= |Encode(before + run + rest)|
    ensures Scan(isLetter, Encode(before + run + rest), |Encode(before)|, entry)
            == Decided(isLetter, before, run, rest, entry)
  {
    hide Encode;
    hide DecodeRune;
    hide EncodeRune;
    hide CutOff;
    hide HasCjk;
    hide CjkInRun;
    hide IsSpace;
    hide IsTerminator;
    hide IsCjkTerminator;
    hide InRun;
    hide IsAbbreviation;
    RunText(before, run, rest);
    RunFollows(before, run, rest);
    CjkIsSeen(run);
    RunBegins(run);
  }

  // The text at the run, as the scan reads it.
  lemma RunFollows(before: seq<Rune>, run: seq<Rune>, rest: seq<Rune>)
    requires Scalars(run) && Scalars(rest) && run != [] && forall k :: 0 <= k < |run| ==> InRun(run[k])
    requires rest != [] ==> !InRun(rest[0])
    ensures var b := Encode(before + run + rest);
            var i, end := |Encode(before)|, |Encode(before + run)|;
            && i < end <= |b| && !CutOff(b[i..])
            && (var d := DecodeRune(b[i..]);
                d.rune == run[0] && i + d.size <= end && EndOfRun(b, i + d.size) == Ends(end))
            && (rest == [] ==> end == |b|)
            && (rest != [] ==> end < |b| && DecodeRune(b[end..]).rune == rest[0])
  {
    hide Encode;
    hide DecodeRune;
    hide EncodeRune;
    hide CutOff;
    hide InRun;
    hide Scalars;
    RunOpens(before, run, rest);
    EndsThere(before + run, rest);
    if rest != [] { RestFollows(before + run, rest); }
  }

  lemma RunOpens(before: seq<Rune>, run: seq<Rune>, rest: seq<Rune>)
    requires Scalars(run) && Scalars(rest) && run != [] && forall k :: 0 <= k < |run| ==> InRun(run[k])
    requires rest != [] ==> !InRun(rest[0])
    ensures var b := Encode(before + run + rest);
            var i, end := |Encode(before)|, |Encode(before + run)|;
            && i < end <= |b| && !CutOff(b[i..])
            && var d := DecodeRune(b[i..]);
               d.rune == run[0] && i + d.size <= end && EndOfRun(b, i + d.size) == Ends(end)
  {
    hide Encode;
    hide DecodeRune;
    hide EncodeRune;
    hide CutOff;
    hide InRun;
    var r, more := run[0], run[1..];
    FirstApart(before, run, rest);
    Stands(before, r, more + rest);
    RunEndsThere(before + [r], more, rest);
    EndsThere(before + [r], more);
    EncodedIsWhole(r);
  }

  lemma FirstApart(before: seq<Rune>, run: seq<Rune>, rest: seq<Rune>)
    requires run != []
    ensures before + [run[0]] + (run[1..] + rest) == before + run + rest
    ensures before + [run[0]] + run[1..] + rest == before + run + rest
    ensures before + [run[0]] + run[1..] == before + run
  {
  }

  lemma RestFollows(before: seq<Rune>, rest: seq<Rune>)
    requires Scalars(rest) && rest != []
    ensures var b := Encode(before + rest);
            |Encode(before)| < |b| && DecodeRune(b[|Encode(before)|..]).rune == rest[0]
  {
    hide Encode;
    hide DecodeRune;
    hide EncodeRune;
    hide CutOff;
    assert before + [rest[0]] + rest[1..] == before + rest;
    Stands(before, rest[0], rest[1..]);
  }

  lemma RunBegins(run: seq<Rune>)
    requires run != [] && IsTerminator(run[0])
    ensures run[0] != 0x0A && (IsCjkTerminator(run[0]) ==> HasCjk(run))
  {
  }

  // The run of terminators and closing quotes behind plain text: with a CJK terminator
  // in it, it ends a sentence at once; without one it ends one exactly when a space
  // follows and no abbreviation comes before; nothing is decided while nothing follows;
  // and otherwise the scan goes on behind the run.
  lemma RunDecides(isLetter: Rune -> bool, front: seq<Rune>, plain: seq<Rune>, run: seq<Rune>, rest: seq<Rune>,
                   entry: nat)
    requires Scalars(plain) && Scalars(run) && Scalars(rest) && entry <= |Encode(front)|
    requires forall k :: 0 <= k < |plain| ==> Plain(plain[k])
    requires run != [] && IsTerminator(run[0]) && forall k :: 0 <= k < |run| ==> InRun(run[k])
    requires rest != [] ==> !InRun(rest[0])
    ensures |Encode(front)| <= |Encode(front + plain)| <= |Encode(front + plain + run)|
            <= |Encode(front + plain + run + rest)|
    ensures Scan(isLetter, Encode(front + plain + run + rest), |Encode(front)|, entry)
            == Decided(isLetter, front + plain, run, rest, entry)
  {
    hide Encode;
    hide Decided;
    hide IsTerminator;
    hide InRun;
    hide Plain;
    assert front + plain + (run + rest) == front + plain + run + rest;
    PlainIsPassed(isLetter, front, plain, run + rest, entry);
    ScanAtRun(isLetter, front + plain, run, rest, entry);
  }

  // The bytes of the run.
  lemma RunText(before: seq<Rune>, run: seq<Rune>, rest: seq<Rune>)
    ensures var b := Encode(before + run + rest);
            var i, j := |Encode(before)|, |Encode(before + run)|;
            i <= j <= |b| && b[i..j] == Encode(run) && b[..i] == Encode(before)
  {
    hide Encode;
    EncodeAppend(before + run, rest);
    EncodeAppend(before, run);
  }

  // ---- abbreviations -------------------------------------------------------------------------------------------

  lemma {:induction false} WordBegins(isLetter: Rune -> bool, front: seq<Rune>, word: seq<Rune>, b: Text)
    requires Scalars(front) && Scalars(word) && forall k :: 0 <= k < |word| ==> isLetter(word[k])
    requires front != [] ==> !isLetter(front[|front| - 1])
    requires Encode(front + word) <= b
    ensures WordStart(isLetter, b, |Encode(front + word)|) == |Encode(front)|
    decreases |word|
  {
    hide Encode;
    hide EncodeRune;
    hide DecodeLastRune;
    var all := front + word;
    if all == [] {
      assert all == front;
      NothingEncodes();
    } else {
      var init, r := all[..|all| - 1], all[|all| - 1];
      assert all == init + [r] && Scalar(r);
      EncodeAppend(init, [r]);
      EncodeOne(r);
      EncodedIsWhole(r);
      DecodeLastEncoded(Encode(init), r);
      assert b[..|Encode(all)|] == Encode(init) + EncodeRune(r);
      if word == [] {
        assert all == front;
      } else {
        assert init == front + word[..|word| - 1];
        WordBegins(isLetter, front, word[..|word| - 1], b);
      }
    }
  }

  lemma NothingEncodes()
    ensures Encode([]) == []
  {
  }

  // A single letter or a known title before a full stop makes an abbreviation of it;
  // the word is all the letters there are right before.
  lemma AbbreviationMeans(isLetter: Rune -> bool, front: seq<Rune>, word: seq<Rune>)
    requires Scalars(front) && Scalars(word) && forall k :: 0 <= k < |word| ==> isLetter(word[k])
    requires front != [] ==> !isLetter(front[|front| - 1])
    ensures IsAbbreviation(isLetter, Encode(front + word))
            <==> |word| == 1 || (word != [] && KnownAbbreviation(Encode(word)))
  {
    hide KnownAbbreviation;
    hide Encode;
    WordBegins(isLetter, front, word, Encode(front + word));
    EncodeAppend(front, word);
    assert Encode(front + word)[|Encode(front)|..] == Encode(word);
    RunesOfEncoded(word);
    RuneCountIsLength(Encode(word));
    if word == [] {
      NothingEncodes();
    } else {
      WordsAreThere(word);
    }
  }

  lemma WordsAreThere(word: seq<Rune>)
    requires Scalars(word) && word != []
    ensures Encode(word) != []
  {
    hide EncodeRune;
    EncodedIsWhole(word[0]);
  }

  // ---- sentences ---------------------------------------------------------------------------------------------

  // A sentence that has ended is handed on at once if it has at least six characters,
  // and joined to the next one otherwise.
  lemma SixCharactersMakeASentence(isLetter: Rune -> bool, s: Splitter, end: nat)
    requires WellFormed(s) && Scan(isLetter, s.buf, s.scan, s.scan) == Found(end)
    ensures var (s', ss) := Split(isLetter, s);
            && (RuneCount(s.buf[..end]) >= 6 ==>
                  && ss != [] && ss[0] == Sentence(s.buf[..end], s.base, s.base + end)
                  && (s', ss[1..]) == Split(isLetter, Splitter(s.buf[end..], s.base + end, 0)))
            && (RuneCount(s.buf[..end]) < 6 ==> (s', ss) == Split(isLetter, s.(scan := end)))
  {
    hide Scan;
    hide RuneCount;
    if RuneCount(s.buf[..end]) >= 6 {
      var more := Split(isLetter, AfterTake(s, end)).1;
      assert ([Take(s, end)] + more)[1..] == more;
    }
  }

  // What is left is handed on at the end, however short.
  lemma TheRestIsASentence(s: Splitter)
    ensures Flush(s).1 == (if s.buf == [] then [] else [Sentence(s.buf, s.base, s.base + |s.buf|)])
    ensures Flush(s).0.buf == []
  {
    assert s.buf[..|s.buf|] == s.buf;
  }
}
