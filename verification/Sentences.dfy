// The streaming sentence splitter (internal/session/sentencer.go).
module Sentences {
  import opened Audio
  import opened Utf8

  const MIN_SENTENCE_RUNES: nat := 6

  // A span of the full text, by byte offsets.
  datatype Sentence = Sentence(text: Text, start: nat, end: nat)

  // buf is the unconsumed text, base its offset in the full text, scan the
  // number of its bytes already searched.
  datatype Splitter = Splitter(buf: Text, base: nat, scan: nat)

  // The outcome of findBoundary. More carries the new scan position.
  datatype Search = Found(end: nat) | More(scan: nat)

  predicate IsCjkTerminator(r: Rune) {
    r == 0x3002 || r == 0xFF01 || r == 0xFF1F
  }

  predicate IsTerminator(r: Rune) {
    r == 0x2E || r == 0x21 || r == 0x3F || IsCjkTerminator(r)
  }

  predicate IsClosingQuote(r: Rune) {
    || r == 0x22 || r == 0x27 || r == 0x29
    || r == 0x201D || r == 0x2019 || r == 0x300D || r == 0x300F
  }

  predicate CjkInRun(b: Text)
    decreases |b|
  {
    b != [] &&
    var d := DecodeRune(b);
    IsCjkTerminator(d.rune) || CjkInRun(b[d.size..])
  }

  function Lower(b: Byte): Byte {
    if 0x41 <= b <= 0x5A then b + 0x20 else b
  }

  function LowerAll(b: Text): Text {
    seq(|b|, i requires 0 <= i < |b| => Lower(b[i]))
  }

  // dr, mr, mrs, ms, prof, st, vs. No letter outside ASCII lower-cases to one
  // of theirs, so lower-casing ASCII is enough.
  predicate KnownAbbreviation(word: Text) {
    LowerAll(word) in [[0x64, 0x72], [0x6D, 0x72], [0x6D, 0x72, 0x73], [0x6D, 0x73],
                       [0x70, 0x72, 0x6F, 0x66], [0x73, 0x74], [0x76, 0x73]]
  }

  // Start of the longest run of letters ending at end.
  function WordStart(isLetter: Rune -> bool, b: Text, end: nat): (start: nat)
    requires end <= |b|
    ensures start <= end
    decreases end
  {
    if end == 0 then 0 else
      var d := DecodeLastRune(b[..end]);
      if isLetter(d.rune) then WordStart(isLetter, b, end - d.size) else end
  }

  predicate IsAbbreviation(isLetter: Rune -> bool, b: Text) {
    var word := b[WordStart(isLetter, b, |b|)..];
    word != [] && (RuneCount(word) == 1 || KnownAbbreviation(word))
  }

  // A rune cut off by the end of the buffer.
  predicate CutOff(b: Text) {
    Invalid(DecodeRune(b)) && !FullRune(b)
  }

  // An ASCII byte is a whole rune.
  lemma AsciiDecodes(b: Text)
    requires b != [] && b[0] < 0x80
    ensures DecodeRune(b) == Decoded(b[0], 1) && !CutOff(b)
  {
  }

  // End of the run of terminators and closing quotes from j, or None when the
  // buffer ends inside a rune.
  datatype RunEnd = Cut | Ends(at: nat)

  function EndOfRun(buf: Text, j: nat): (r: RunEnd)
    requires j <= |buf|
    ensures r.Ends? ==> j <= r.at <= |buf|
    decreases |buf| - j
  {
    if j == |buf| then Ends(j)
    else if CutOff(buf[j..]) then Cut
    else
      var d := DecodeRune(buf[j..]);
      if IsTerminator(d.rune) || IsClosingQuote(d.rune) then EndOfRun(buf, j + d.size) else Ends(j)
  }

  // findBoundary's loop from i; entry is the scan position it started with.
  function Scan(isLetter: Rune -> bool, buf: Text, i: nat, entry: nat): (r: Search)
    requires entry <= i <= |buf|
    ensures r.Found? ==> i < r.end <= |buf|
    ensures r.More? ==> entry <= r.scan <= |buf|
    decreases |buf| - i
  {
    if i == |buf| then More(i)
    else if CutOff(buf[i..]) then More(entry)
    else
      var d := DecodeRune(buf[i..]);
      if d.rune == 0x0A then Found(i + d.size)
      else if !IsTerminator(d.rune) then Scan(isLetter, buf, i + d.size, entry)
      else
        match EndOfRun(buf, i + d.size)
        case Cut => More(entry)
        case Ends(j) =>
          if IsCjkTerminator(d.rune) || CjkInRun(buf[i..j]) then Found(j)
          else if j == |buf| then More(entry)
          else if IsSpace(DecodeRune(buf[j..]).rune) && !IsAbbreviation(isLetter, buf[..i]) then Found(j)
          else Scan(isLetter, buf, j, entry)
  }

  predicate WellFormed(s: Splitter) {
    s.scan <= |s.buf|
  }

  // push's loop, once the chunk is in the buffer.
  function Split(isLetter: Rune -> bool, s: Splitter): (r: (Splitter, seq<Sentence>))
    requires WellFormed(s)
    ensures WellFormed(r.0)
    decreases |s.buf|, |s.buf| - s.scan
  {
    match Scan(isLetter, s.buf, s.scan, s.scan)
    case More(scan) => (s.(scan := scan), [])
    case Found(end) =>
      if RuneCount(s.buf[..end]) < MIN_SENTENCE_RUNES then Split(isLetter, s.(scan := end))
      else
        var (rest, more) := Split(isLetter, AfterTake(s, end));
        (rest, [Take(s, end)] + more)
  }

  function Take(s: Splitter, end: nat): Sentence
    requires end <= |s.buf|
  {
    Sentence(s.buf[..end], s.base, s.base + end)
  }

  function AfterTake(s: Splitter, end: nat): Splitter
    requires end <= |s.buf|
  {
    Splitter(s.buf[end..], s.base + end, 0)
  }

  function Push(isLetter: Rune -> bool, s: Splitter, chunk: Text): (r: (Splitter, seq<Sentence>))
    requires WellFormed(s)
    ensures WellFormed(r.0)
  {
    Split(isLetter, s.(buf := s.buf + chunk))
  }

  // At most one sentence.
  function Flush(s: Splitter): (Splitter, seq<Sentence>) {
    if s.buf == [] then (s, []) else (AfterTake(s, |s.buf|), [Take(s, |s.buf|)])
  }

  const EMPTY: Splitter := Splitter([], 0, 0)

  // ---- tiling --------------------------------------------------------------------

  // ss covers text[from..to] span by span, without gap or overlap, each span
  // non-empty and carrying its own text.
  ghost predicate Tiles(ss: seq<Sentence>, text: Text, from: nat, to: nat)
    decreases |ss|
  {
    if ss == [] then from == to
    else
      && ss[0].start == from
      && from < ss[0].end <= to <= |text|
      && ss[0].text == text[from..ss[0].end]
      && Tiles(ss[1..], text, ss[0].end, to)
  }

  ghost predicate LongEnough(ss: seq<Sentence>) {
    forall i :: 0 <= i < |ss| ==> RuneCount(ss[i].text) >= 6
  }

  // The splitter holds exactly the part of text that has not been returned.
  ghost predicate Holds(s: Splitter, text: Text) {
    && WellFormed(s)
    && s.base + |s.buf| == |text|
    && s.buf == text[s.base..]
  }

  lemma {:induction false} SplitTiles(isLetter: Rune -> bool, s: Splitter, text: Text)
    requires Holds(s, text)
    ensures var (s', ss) := Split(isLetter, s);
            && Holds(s', text)
            && Tiles(ss, text, s.base, s'.base)
            && LongEnough(ss)
    decreases |s.buf|, |s.buf| - s.scan
  {
    hide Scan;
    hide RuneCount;
    match Scan(isLetter, s.buf, s.scan, s.scan)
    case More(scan) =>
    case Found(end) =>
      if RuneCount(s.buf[..end]) < MIN_SENTENCE_RUNES {
        SplitTiles(isLetter, s.(scan := end), text);
      } else {
        var s1 := AfterTake(s, end);
        SplitTiles(isLetter, s1, text);
        var (s', more) := Split(isLetter, s1);
        TilesBound(more, text, s1.base, s'.base);
        assert ([Take(s, end)] + more)[1..] == more;
      }
  }

  lemma {:induction false} TilesBound(ss: seq<Sentence>, text: Text, from: nat, to: nat)
    requires Tiles(ss, text, from, to)
    ensures from <= to
    decreases |ss|
  {
    if ss != [] {
      TilesBound(ss[1..], text, ss[0].end, to);
    }
  }

  lemma {:induction false} TilesConcat(a: seq<Sentence>, b: seq<Sentence>, text: Text, from: nat, mid: nat, to: nat)
    requires Tiles(a, text, from, mid) && Tiles(b, text, mid, to)
    ensures Tiles(a + b, text, from, to)
    decreases |a|
  {
    TilesBound(b, text, mid, to);
    if a == [] {
      assert a + b == b;
    } else {
      TilesConcat(a[1..], b, text, a[0].end, mid, to);
      TilesBound(a[1..], text, a[0].end, mid);
      assert (a + b)[1..] == a[1..] + b;
      if b != [] { TilesInside(b, text, mid, to); }
    }
  }

  lemma TilesInside(ss: seq<Sentence>, text: Text, from: nat, to: nat)
    requires Tiles(ss, text, from, to) && ss != []
    ensures to <= |text|
  {
  }

  // More text does not disturb the spans already returned.
  lemma {:induction false} TilesExtend(ss: seq<Sentence>, text: Text, more: Text, from: nat, to: nat)
    requires Tiles(ss, text, from, to)
    ensures Tiles(ss, text + more, from, to)
    decreases |ss|
  {
    if ss != [] {
      TilesExtend(ss[1..], text, more, ss[0].end, to);
      assert (text + more)[from..ss[0].end] == text[from..ss[0].end];
    }
  }

  // Every chunk in turn.
  function PushAll(isLetter: Rune -> bool, s: Splitter, chunks: seq<Text>): (r: (Splitter, seq<Sentence>))
    requires WellFormed(s)
    ensures WellFormed(r.0)
    decreases |chunks|
  {
    if chunks == [] then (s, [])
    else
      var (s1, out1) := Push(isLetter, s, chunks[0]);
      var (s2, out2) := PushAll(isLetter, s1, chunks[1..]);
      (s2, out1 + out2)
  }

  function Concat(chunks: seq<Text>): Text
    decreases |chunks|
  {
    if chunks == [] then [] else chunks[0] + Concat(chunks[1..])
  }

  lemma {:induction false} PushAllTiles(isLetter: Rune -> bool, s: Splitter, chunks: seq<Text>, before: Text)
    requires Holds(s, before)
    ensures var (s', ss) := PushAll(isLetter, s, chunks);
            && Holds(s', before + Concat(chunks))
            && Tiles(ss, before + Concat(chunks), s.base, s'.base)
            && LongEnough(ss)
    decreases |chunks|
  {
    hide Push;
    hide Tiles;
    if chunks == [] {
      assert before + [] == before;
      NothingTiles(before, s.base);
    } else {
      var text1 := before + chunks[0];
      PushTiles(isLetter, s, chunks[0], before);
      var (s1, out1) := Push(isLetter, s, chunks[0]);
      PushAllTiles(isLetter, s1, chunks[1..], text1);
      var (s2, out2) := PushAll(isLetter, s1, chunks[1..]);
      var rest := Concat(chunks[1..]);
      assert text1 + rest == before + Concat(chunks);
      TilesExtend(out1, text1, rest, s.base, s1.base);
      TilesConcat(out1, out2, text1 + rest, s.base, s1.base, s2.base);
    }
  }

  lemma NothingTiles(text: Text, at: nat)
    ensures Tiles([], text, at, at) && LongEnough([])
  {
  }

  lemma PushTiles(isLetter: Rune -> bool, s: Splitter, chunk: Text, before: Text)
    requires Holds(s, before)
    ensures var (s', ss) := Push(isLetter, s, chunk);
            && Holds(s', before + chunk)
            && Tiles(ss, before + chunk, s.base, s'.base)
            && LongEnough(ss)
  {
    hide Split;
    hide Tiles;
    hide LongEnough;
    var s1 := s.(buf := s.buf + chunk);
    assert s1.buf == (before + chunk)[s.base..];
    SplitTiles(isLetter, s1, before + chunk);
  }

  // The text of a whole stream: every chunk pushed, then flush.
  function Stream(isLetter: Rune -> bool, chunks: seq<Text>): seq<Sentence> {
    var (s, ss) := PushAll(isLetter, EMPTY, chunks);
    ss + Flush(s).1
  }

  // For any text and any chunking, the sentences tile the text contiguously,
  // and every sentence but the flushed one has at least six runes.
  lemma StreamTiles(isLetter: Rune -> bool, chunks: seq<Text>)
    ensures Tiles(Stream(isLetter, chunks), Concat(chunks), 0, |Concat(chunks)|)
    ensures LongEnough(PushAll(isLetter, EMPTY, chunks).1)
    ensures |Stream(isLetter, chunks)| <= |PushAll(isLetter, EMPTY, chunks).1| + 1
  {
    hide PushAll;
    PushAllTiles(isLetter, EMPTY, chunks, []);
    var text := Concat(chunks);
    assert [] + text == text;
    var (s, ss) := PushAll(isLetter, EMPTY, chunks);
    FlushTiles(s, text);
    TilesConcat(ss, Flush(s).1, text, 0, s.base, |text|);
  }

  lemma FlushTiles(s: Splitter, text: Text)
    requires Holds(s, text)
    ensures Tiles(Flush(s).1, text, s.base, |text|)
    ensures Holds(Flush(s).0, text) && Flush(s).0.buf == []
  {
    if s.buf != [] {
      assert s.buf[..|s.buf|] == text[s.base..|text|];
      assert Flush(s).1[1..] == [];
    }
  }
}
