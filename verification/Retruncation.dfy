// Truncating the same item a second time (internal/session/truncate.go:38-88,
// internal/session/session.go:713-725): the text has been cut to what the first
// truncate kept, the audio total to its cut, and the segments are unchanged.
module Retruncation {
  import opened Utf8
  import opened Conversations
  import opened Truncation

  // ---- arithmetic ---------------------------------------------------------------------------

  lemma CancelStrict(m: nat, x: int, y: int)
    requires m * x < m * y
    ensures x < y
  {
    assert x >= y ==> m * x >= m * y;
  }

  lemma MulLe(m: nat, x: int, y: int)
    requires x <= y
    ensures m * x <= m * y
  {
  }

  lemma Swap(x: int, y: int, z: int)
    ensures x * (y * z) == y * (x * z)
  {
  }

  lemma Dist(x: int, y: int, z: int)
    ensures x * (y + z) == x * y + x * z
  {
  }

  lemma AtMostDirect(a: nat, b: nat, d: nat, n: nat, k1: nat, k2: nat, k: nat)
    requires 0 < a && 0 < d
    requires d * k1 <= n * a && a * k2 <= k1 * b && n * b < d * (k + 1)
    ensures k2 <= k
  {
    FirstCutBound(a, b, d, n, k1, k2);
    CutBelow(a, b, d, n, k);
    CancelStrict(a, d * k2, d * (k + 1));
    CancelStrict(d, k2, k + 1);
  }

  lemma FirstCutBound(a: nat, b: nat, d: nat, n: nat, k1: nat, k2: nat)
    requires d * k1 <= n * a && a * k2 <= k1 * b
    ensures a * (d * k2) <= a * (n * b)
  {
    MulLe(d, a * k2, k1 * b);
    MulLe(b, d * k1, n * a);
    Swap(d, a, k2);
    assert d * (k1 * b) == b * (d * k1) by { Swap(b, d, k1); assert k1 * b == b * k1; }
    assert b * (n * a) == a * (n * b) by { Swap(b, n, a); Swap(a, n, b); assert a * b == b * a; }
  }

  lemma CutBelow(a: nat, b: nat, d: nat, n: nat, k: nat)
    requires 0 < a && n * b < d * (k + 1)
    ensures a * (n * b) < a * (d * (k + 1))
  {
    MulLe(a, n * b + 1, d * (k + 1));
    Dist(a, n * b, 1);
  }

  lemma AtLeastOneLess(a: nat, b: nat, d: nat, n: nat, k1: nat, k2: nat, k: nat)
    requires 0 < b < a && 0 < d
    requires n * a < d * (k1 + 1) && k1 * b < a * (k2 + 1) && d * k <= n * b
    ensures k <= k2 + 1
  {
    LossOfFirst(a, b, d, n, k1);
    LossOfSecond(a, b, d, k1, k2);
    MulLe(a, d * k, n * b);
    CancelStrict(a, d * k, d * (k2 + 2));
    CancelStrict(d, k, k2 + 2);
  }

  lemma LossOfFirst(a: nat, b: nat, d: nat, n: nat, k1: nat)
    requires 0 < b && n * a < d * (k1 + 1)
    ensures a * (n * b) < d * k1 * b + d * b
  {
    MulLe(b, n * a + 1, d * (k1 + 1));
    Dist(b, n * a, 1);
    Swap(b, n, a);
    Swap(n, a, b);
    Swap(b, d, k1 + 1);
    Dist(b, k1, 1);
    Dist(d, b * k1, b);
    assert d * (b * k1) == d * k1 * b;
  }

  lemma LossOfSecond(a: nat, b: nat, d: nat, k1: nat, k2: nat)
    requires b < a && 0 < d && k1 * b < a * (k2 + 1)
    ensures d * k1 * b + d * b < a * (d * (k2 + 2))
  {
    MulLe(d, k1 * b + b, a * (k2 + 1) + a - 2);
    Dist(d, k1 * b, b);
    assert d * (k1 * b) == d * k1 * b;
    Dist(a, k2 + 1, 1);
    Dist(d, a * (k2 + 2), -2);
    Swap(d, a, k2 + 2);
  }

  lemma FloorFacts(n: nat, x: nat, d: nat)
    requires 0 < d && x <= d
    ensures d * Proportion(n, x, d) <= n * x < d * (Proportion(n, x, d) + 1)
  {
    assert n * x == d * (n * x / d) + n * x % d;
  }

  // ---- no segments: the proportional tier --------------------------------------------------------

  lemma WholeTrim(text: Text, cut: nat, total: nat)
    requires Valid(text) && text != [] && 0 < cut < total
    ensures var r := TrimText(text, [], [], cut, total);
            && r.Trimmed? && r.text <= text && Valid(r.text)
            && Runes(r.text) == Runes(text)[..Proportion(|Runes(text)|, cut, total)]
  {
    hide Runes;
    hide Encode;
    hide Boundary;
    hide Valid;
    hide Proportion;
    hide TrimText;
    var k := Proportion(|Runes(text)|, cut, total);
    EncodeIsPrefix(text, k);
    BoundarySplits(text, |Encode(Runes(text)[..k])|);
    WholeTrimCuts(text, cut, total);
  }

  // The text is one segment as long as the response.
  lemma WholeTrimCuts(text: Text, cut: nat, total: nat)
    requires text != [] && 0 < cut < total
    requires |Encode(Runes(text)[..Proportion(|Runes(text)|, cut, total)])| <= |text|
    ensures TrimText(text, [], [], cut, total)
         == Trimmed(text[..|Encode(Runes(text)[..Proportion(|Runes(text)|, cut, total)])|])
  {
    hide Runes;
    hide Encode;
    hide Proportion;
    assert text[0..|text|] == text;
  }

  lemma TwoProportions(n: nat, a: nat, b: nat, total: nat)
    requires 0 < b < a < total
    ensures var twice := Proportion(Proportion(n, a, total), b, a);
            twice <= Proportion(n, b, total) <= twice + 1
  {
    hide Proportion;
    var k1 := Proportion(n, a, total);
    FloorFacts(n, a, total);
    FloorFacts(n, b, total);
    FloorFacts(k1, b, a);
    AtMostDirect(a, b, total, n, k1, Proportion(k1, b, a), Proportion(n, b, total));
    AtLeastOneLess(a, b, total, n, k1, Proportion(k1, b, a), Proportion(n, b, total));
  }

  // Cutting at a and then at b keeps at most what cutting at b at once keeps,
  // and at most one rune less.
  lemma TwoCutsLoseAtMostOneRune(text: Text, a: nat, b: nat, total: nat)
    requires Valid(text) && text != [] && 0 < b < a < total
    ensures var once := TrimText(text, [], [], b, total);
            var first := TrimText(text, [], [], a, total);
            && once.Trimmed? && first.Trimmed?
            && var twice := TrimText(first.text, [], [], b, a);
               && twice.Trimmed?
               && Runes(twice.text) <= Runes(once.text)
               && |Runes(once.text)| <= |Runes(twice.text)| + 1
  {
    hide TrimText;
    hide Proportion;
    hide Runes;
    hide Valid;
    var rs := Runes(text);
    WholeTrim(text, a, total);
    WholeTrim(text, b, total);
    TwoProportions(|rs|, a, b, total);
    var first := TrimText(text, [], [], a, total).text;
    var k1 := Proportion(|rs|, a, total);
    assert |Runes(first)| == k1;
    if first == [] {
      NothingLeft(a, b);
      assert k1 == 0 by { NoRunes(); }
      NothingOfNothing(b, a);
    } else {
      WholeTrim(first, b, a);
      assert rs[..k1][..Proportion(k1, b, a)] == rs[..Proportion(k1, b, a)];
    }
  }

  lemma NoRunes()
    ensures Runes([]) == []
  {
  }

  lemma NothingOfNothing(b: nat, a: nat)
    requires b < a
    ensures Proportion(0, b, a) == 0
  {
  }

  lemma NothingLeft(a: nat, b: nat)
    ensures TrimText([], [], [], b, a) == Trimmed([])
  {
  }

  // ---- with segments ----------------------------------------------------------------------------

  predicate Straddles(seg: Segment, cut: nat) {
    seg.audioStart < cut < seg.audioEnd
  }

  // The cut falls inside a segment whose text has been cut short.
  ghost predicate StraddlesLostText(segs: seq<Segment>, held: nat, cut: nat) {
    exists i :: 0 <= i < |segs| && Straddles(segs[i], cut) && segs[i].textEnd > held
  }

  // Some of the segment has been heard at the cut.
  predicate HeardBy(seg: Segment, cut: nat) {
    seg.audioStart < cut || seg.audioEnd <= cut
  }

  // Some has been heard of a segment that ends past the text held.
  ghost predicate HearsLostText(segs: seq<Segment>, held: nat, cut: nat) {
    exists i :: 0 <= i < |segs| && HeardBy(segs[i], cut) && segs[i].textEnd > held
  }

  // The segments that end inside the text end between its runes.
  ghost predicate AlignedWithin(text: Text, segs: seq<Segment>) {
    forall i :: 0 <= i < |segs| && segs[i].textEnd <= |text| ==> Boundary(text, segs[i].textEnd)
  }

  // What has been heard to the end by cut lies in the first count bytes.
  ghost predicate EndedWithin(segs: seq<Segment>, count: nat, cut: nat) {
    forall i :: 0 <= i < |segs| && segs[i].audioEnd <= cut ==> segs[i].textEnd <= count
  }

  lemma {:induction false} LaterSegments(segs: seq<Segment>, t: nat, a: nat, tEnd: nat, aEnd: nat)
    requires Tiled(segs, t, a, tEnd, aEnd)
    ensures forall i :: 0 <= i < |segs| ==> t <= segs[i].textStart <= segs[i].textEnd
    ensures forall i :: 0 <= i < |segs| ==> a <= segs[i].audioStart <= segs[i].audioEnd
    decreases |segs|
  {
    if segs != [] {
      LaterSegments(segs[1..], segs[0].textEnd, segs[0].audioEnd, tEnd, aEnd);
      assert forall i :: 0 < i < |segs| ==> segs[i] == segs[1..][i - 1];
    }
  }

  // A first segment that ended before the cut, and the rest.
  lemma EndedFirst(segs: seq<Segment>, held: nat, cut: nat)
    requires segs != [] && segs[0].audioEnd <= cut
    ensures HearsLostText(segs, held, cut) <==> segs[0].textEnd > held || HearsLostText(segs[1..], held, cut)
  {
    if HearsLostText(segs[1..], held, cut) {
      var i :| 0 <= i < |segs[1..]| && HeardBy(segs[1..][i], cut) && segs[1..][i].textEnd > held;
      assert segs[i + 1] == segs[1..][i];
    }
    if HearsLostText(segs, held, cut) {
      var i :| 0 <= i < |segs| && HeardBy(segs[i], cut) && segs[i].textEnd > held;
      assert i > 0 ==> segs[1..][i - 1] == segs[i];
    }
    assert HeardBy(segs[0], cut);
  }

  // When the first segment ends after the cut, nothing later has been heard.
  lemma NothingLater(segs: seq<Segment>, held: nat, cut: nat, tEnd: nat, aEnd: nat)
    requires segs != [] && segs[0].audioEnd > cut
    requires Tiled(segs[1..], segs[0].textEnd, segs[0].audioEnd, tEnd, aEnd)
    ensures HearsLostText(segs, held, cut) <==> HeardBy(segs[0], cut) && segs[0].textEnd > held
    ensures EndedWithin(segs, 0, cut)
  {
    LaterSegments(segs[1..], segs[0].textEnd, segs[0].audioEnd, tEnd, aEnd);
    assert forall i :: 0 < i < |segs| ==> segs[i] == segs[1..][i - 1];
  }

  // Text and segments as any number of cuts may have left them: what is kept is
  // in bounds, unless some has been heard of a segment that ends past the text.
  lemma {:induction false} KeepBytesExactly(text: Text, segs: seq<Segment>, cut: nat, t: nat, a: nat,
                                            tEnd: nat, aEnd: nat)
    requires Valid(text) && Tiled(segs, t, a, tEnd, aEnd) && AlignedWithin(text, segs)
    requires t <= |text| ==> Boundary(text, t)
    ensures var k := KeepBytes(text, segs, cut, t);
            && ((k.Panic? || k.count > |text|) <==> (t > |text| || HearsLostText(segs, |text|, cut)))
            && (k.Bytes? && k.count <= |text|
                ==> t <= k.count && Boundary(text, k.count) && EndedWithin(segs, k.count, cut))
    decreases |segs|
  {
    hide KeepOfSegment;
    hide HearsLostText;
    if segs == [] {
      NothingHeard(|text|, cut);
    } else {
      var seg := segs[0];
      assert seg.textEnd <= |text| ==> Boundary(text, seg.textEnd);
      assert forall i :: 0 < i < |segs| ==> segs[i] == segs[1..][i - 1];
      if seg.audioEnd <= cut {
        KeepBytesExactly(text, segs[1..], cut, seg.textEnd, seg.audioEnd, tEnd, aEnd);
        EndedFirst(segs, |text|, cut);
      } else {
        NothingLater(segs, |text|, cut, tEnd, aEnd);
        if seg.audioStart < cut && seg.textEnd <= |text| {
          KeepOfSegmentFits(text, seg, cut);
        }
      }
    }
  }

  lemma NothingHeard(held: nat, cut: nat)
    ensures !HearsLostText([], held, cut)
  {
  }

  // Cutting valid text whose segments tile and end between runes where they end
  // inside it slices out of range exactly when the segment tier is used and some
  // has been heard of a segment that ends past the text.
  lemma TrimExactly(text: Text, segs: seq<Segment>, align: seq<CharTiming>, cut: int, total: nat, tEnd: nat, aEnd: nat)
    requires Valid(text) && Tiled(segs, 0, 0, tEnd, aEnd) && AlignedWithin(text, segs)
    ensures TrimText(text, segs, align, cut, total).OutOfRange?
       <==> 0 < cut < total && text != [] && align == [] && HearsLostText(segs, |text|, cut)
  {
    hide HearsLostText;
    if 0 < cut < total && text != [] && align == [] {
      if segs == [] {
        NothingHeard(|text|, cut);
        WholeTextIsBoundary(text);
        WholeResponseFits(text, total);
        assert Tiled(WholeResponse(text, total), 0, 0, |text|, total);
        KeepBytesFits(text, WholeResponse(text, total), cut, 0, 0, |text|, total);
      } else {
        KeepBytesExactly(text, segs, cut, 0, 0, tEnd, aEnd);
      }
    }
  }

  lemma {:induction false} KeepBytesLost(text: Text, segs: seq<Segment>, cut: nat, t: nat, a: nat, tEnd: nat, aEnd: nat)
    requires Tiled(segs, t, a, tEnd, aEnd) && (t > |text| || HearsLostText(segs, |text|, cut))
    ensures var k := KeepBytes(text, segs, cut, t);
            k.Panic? || k.count > |text|
    decreases |segs|
  {
    hide KeepOfSegment;
    hide HearsLostText;
    if segs == [] {
      NothingHeard(|text|, cut);
    } else if segs[0].audioEnd <= cut {
      EndedFirst(segs, |text|, cut);
      KeepBytesLost(text, segs[1..], cut, segs[0].textEnd, segs[0].audioEnd, tEnd, aEnd);
    } else {
      NothingLater(segs, |text|, cut, tEnd, aEnd);
    }
  }

  // Whatever the text is and wherever segments end in it, hearing some of a segment
  // that ends past it slices out of range.
  lemma HearingLostText(text: Text, segs: seq<Segment>, cut: int, total: nat, tEnd: nat, aEnd: nat)
    requires Tiled(segs, 0, 0, tEnd, aEnd) && 0 < cut < total && text != [] && HearsLostText(segs, |text|, cut)
    ensures TrimText(text, segs, [], cut, total).OutOfRange?
  {
    hide HearsLostText;
    NothingHeard(|text|, cut);
    KeepBytesLost(text, segs, cut, 0, 0, tEnd, aEnd);
  }

  // ---- however often it was cut ---------------------------------------------------------------------

  // Text and audio of an item as truncates leave them: what was heard to the end
  // before the audio kept is in the text kept.
  ghost predicate CutDown(text: Text, segs: seq<Segment>, total: int) {
    && Valid(text) && AlignedWithin(text, segs)
    && (exists tEnd: nat, aEnd: nat :: Tiled(segs, 0, 0, tEnd, aEnd))
    && (forall i :: 0 <= i < |segs| && segs[i].audioEnd < total ==> segs[i].textEnd <= |text|)
  }

  lemma FitsIsCutDown(text: Text, segs: seq<Segment>, total: nat)
    requires Valid(text) && Fits(text, segs, total)
    ensures CutDown(text, segs, total)
  {
    var tEnd: nat, aEnd: nat :| Tiled(segs, 0, 0, tEnd, aEnd) && tEnd <= |text| && aEnd <= total;
    EndsGrow(segs, 0, 0, tEnd, aEnd);
  }

  lemma {:induction false} EndsGrow(segs: seq<Segment>, t: nat, a: nat, tEnd: nat, aEnd: nat)
    requires Tiled(segs, t, a, tEnd, aEnd)
    ensures forall i :: 0 <= i < |segs| ==> segs[i].textEnd <= tEnd
    decreases |segs|
  {
    if segs != [] {
      TiledGrows(segs[1..], segs[0].textEnd, segs[0].audioEnd, tEnd, aEnd);
      EndsGrow(segs[1..], segs[0].textEnd, segs[0].audioEnd, tEnd, aEnd);
      assert forall i :: 0 < i < |segs| ==> segs[i] == segs[1..][i - 1];
    }
  }

  // Before the end of the audio kept, hearing lost text is straddling it.
  lemma HearingIsStraddling(text: Text, segs: seq<Segment>, cut: nat, total: nat)
    requires CutDown(text, segs, total) && cut < total
    ensures HearsLostText(segs, |text|, cut) <==> StraddlesLostText(segs, |text|, cut)
  {
    if HearsLostText(segs, |text|, cut) {
      var i :| 0 <= i < |segs| && HeardBy(segs[i], cut) && segs[i].textEnd > |text|;
      assert segs[i].audioEnd >= total;
      assert Straddles(segs[i], cut);
    }
    if StraddlesLostText(segs, |text|, cut) {
      var i :| 0 <= i < |segs| && Straddles(segs[i], cut) && segs[i].textEnd > |text|;
      assert HeardBy(segs[i], cut);
    }
  }

  // The next truncate slices out of range exactly when its cut falls inside a
  // segment that lost text; otherwise the item is left as truncates leave it.
  lemma NextTruncate(text: Text, segs: seq<Segment>, cut: int, total: nat)
    requires CutDown(text, segs, total) && cut < total
    ensures var next := TrimText(text, segs, [], cut, total);
            && (next.OutOfRange? <==> 0 < cut && text != [] && StraddlesLostText(segs, |text|, cut))
            && (next.Trimmed? ==> CutDown(next.text, segs, cut) && next.text <= text)
  {
    hide StraddlesLostText;
    hide HearsLostText;
    var tEnd: nat, aEnd: nat :| Tiled(segs, 0, 0, tEnd, aEnd);
    TrimExactly(text, segs, [], cut, total, tEnd, aEnd);
    if 0 < cut { HearingIsStraddling(text, segs, cut, total); }
    if TrimText(text, segs, [], cut, total).Trimmed? { CutLeaves(text, segs, cut, total, tEnd, aEnd); }
  }

  lemma CutLeaves(text: Text, segs: seq<Segment>, cut: int, total: nat, tEnd: nat, aEnd: nat)
    requires CutDown(text, segs, total) && cut < total && Tiled(segs, 0, 0, tEnd, aEnd)
    requires TrimText(text, segs, [], cut, total).Trimmed?
    ensures var kept := TrimText(text, segs, [], cut, total).text;
            CutDown(kept, segs, cut) && kept <= text
  {
    hide KeepBytes;
    if text == [] {
    } else if cut <= 0 {
      LaterSegments(segs, 0, 0, tEnd, aEnd);
      PrefixStaysAligned(text, segs, 0);
    } else {
      var used := if segs == [] then WholeResponse(text, total) else segs;
      var k := KeepBytes(text, used, cut, 0);
      if segs == [] {
        WholeTextIsBoundary(text);
        assert used[1..] == [];
        assert Tiled(used, 0, 0, |text|, total);
        KeepBytesFits(text, used, cut, 0, 0, |text|, total);
      } else {
        KeepBytesExactly(text, segs, cut, 0, 0, tEnd, aEnd);
      }
      PrefixStaysAligned(text, segs, k.count);
    }
  }

  lemma PrefixStaysAligned(text: Text, segs: seq<Segment>, k: nat)
    requires Valid(text) && AlignedWithin(text, segs) && k <= |text| && Boundary(text, k)
    ensures Valid(text[..k]) && AlignedWithin(text[..k], segs)
  {
    BoundarySplits(text, k);
    assert text == text[..k] + text[k..];
    forall i | 0 <= i < |segs| && segs[i].textEnd <= k ensures Boundary(text[..k], segs[i].textEnd) {
      BoundaryAppend(text[..k], text[k..], segs[i].textEnd);
    }
  }

  // A second, earlier truncate slices past the end of the shortened text exactly
  // when its cut falls inside a segment the first one cut short.
  lemma SecondTruncate(text: Text, segs: seq<Segment>, c1: nat, c2: nat, total: nat)
    requires Valid(text) && Fits(text, segs, total) && c2 < c1 < total
    ensures var first := TrimText(text, segs, [], c1, total);
            && first.Trimmed?
            && (TrimText(first.text, segs, [], c2, c1) == OutOfRange
                <==> 0 < c2 && first.text != [] && StraddlesLostText(segs, |first.text|, c2))
  {
    hide CutDown;
    TrimIsPrefix(text, segs, [], c1, total);
    FitsIsCutDown(text, segs, total);
    NextTruncate(text, segs, c1, total);
    NextTruncate(TrimText(text, segs, [], c1, total).text, segs, c2, c1);
  }
}
