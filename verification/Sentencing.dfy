// The sentence splitter as the object a pipeline stage drives
// (internal/session/sentencer.go:33-140).
module Sentencing {
  import opened Utf8
  import opened Sentences

  class Sentencer {
    const isLetter: Rune -> bool
    var buf: Text
    var base: nat
    var scan: nat

    function State(): Splitter
      reads this
    {
      Splitter(buf, base, scan)
    }

    constructor (isLetter: Rune -> bool)
      ensures State() == EMPTY && this.isLetter == isLetter
    {
      this.isLetter := isLetter;
      buf, base, scan := [], 0, 0;
    }

    method IsAbbreviationAt(end: nat) returns (r: bool)
      requires end <= |buf|
      ensures r == IsAbbreviation(isLetter, buf[..end])
    {
      var b := buf[..end];
      var start: nat := end;
      while start > 0
        invariant start <= end && WordStart(isLetter, b, end) == WordStart(isLetter, b, start)
      {
        var d := DecodeLastRune(b[..start]);
        if !isLetter(d.rune) { break; }
        start := start - d.size;
      }
      var word := b[start..];
      r := word != [] && (RuneCount(word) == 1 || KnownAbbreviation(word));
    }

    // The run of terminators and closing quotes that goes on at j.
    method RunFrom(from: nat) returns (r: RunEnd)
      requires from <= |buf|
      ensures r == EndOfRun(buf, from)
    {
      var j: nat := from;
      while j < |buf|
        invariant j <= |buf| && EndOfRun(buf, from) == EndOfRun(buf, j)
        decreases |buf| - j
      {
        var d := DecodeRune(buf[j..]);
        if d.rune == RUNE_ERROR && d.size == 1 && !FullRune(buf[j..]) { return Cut; }
        if !IsTerminator(d.rune) && !IsClosingQuote(d.rune) { break; }
        j := j + d.size;
      }
      r := Ends(j);
    }

    // The next sentence end past scan, which it moves along.
    method FindBoundary() returns (found: bool, end: nat)
      requires WellFormed(State())
      modifies this`scan
      ensures var r := Scan(isLetter, old(buf), old(scan), old(scan));
              && found == r.Found?
              && (found ==> end == r.end == scan)
              && (!found ==> scan == r.scan)
      ensures WellFormed(State())
    {
      hide DecodeRune;
      hide FullRune;
      hide IsAbbreviation;
      hide CjkInRun;
      hide EndOfRun;
      end := 0;
      var i: nat := scan;
      while i < |buf|
        invariant scan == old(scan) <= i <= |buf|
        invariant Scan(isLetter, buf, old(scan), old(scan)) == Scan(isLetter, buf, i, old(scan))
        decreases |buf| - i
      {
        var d := DecodeRune(buf[i..]);
        if d.rune == RUNE_ERROR && d.size == 1 && !FullRune(buf[i..]) { return false, 0; }
        if d.rune == 0x0A {
          scan := i + d.size;
          return true, i + d.size;
        }
        if !IsTerminator(d.rune) {
          i := i + d.size;
          continue;
        }
        var run := RunFrom(i + d.size);
        if run.Cut? { return false, 0; }
        var j := run.at;
        if IsCjkTerminator(d.rune) || CjkInRun(buf[i..j]) {
          scan := j;
          return true, j;
        }
        if j >= |buf| { return false, 0; }
        var next := DecodeRune(buf[j..]);
        var abbreviation := IsAbbreviationAt(i);
        if IsSpace(next.rune) && !abbreviation {
          scan := j;
          return true, j;
        }
        i := j;
      }
      scan := i;
      found := false;
    }

    method Take(end: nat) returns (out: Sentence)
      requires end <= |buf|
      modifies this
      ensures State() == AfterTake(old(State()), end) && out == Sentences.Take(old(State()), end)
    {
      out := Sentence(buf[..end], base, base + end);
      buf := buf[end..];
      base := base + end;
      scan := 0;
    }

    method Push(chunk: Text) returns (out: seq<Sentence>)
      requires WellFormed(State())
      modifies this
      ensures (State(), out) == Sentences.Push(isLetter, old(State()), chunk)
      ensures WellFormed(State())
    {
      hide Scan;
      hide RuneCount;
      buf := buf + chunk;
      out := [];
      ghost var start := State();
      assert [] + Split(isLetter, start).1 == Split(isLetter, start).1;
      while true
        invariant WellFormed(State())
        invariant Split(isLetter, start) == (Split(isLetter, State()).0, out + Split(isLetter, State()).1)
        decreases |buf|, |buf| - scan
      {
        ghost var s := State();
        var found, end := FindBoundary();
        if !found {
          assert Split(isLetter, s) == (State(), []) && out + [] == out;
          return;
        }
        if RuneCount(buf[..end]) >= MIN_SENTENCE_RUNES {
          ghost var was := out;
          var sn := Take(end);
          out := out + [sn];
          assert was + ([sn] + Split(isLetter, State()).1) == out + Split(isLetter, State()).1;
        }
      }
    }

    // What is left, as a final sentence.
    method Flush() returns (out: seq<Sentence>)
      modifies this
      ensures (State(), out) == Sentences.Flush(old(State()))
    {
      if buf == [] { return []; }
      var sn := Take(|buf|);
      out := [sn];
    }
  }
}
