// Trimming an item's text to what was heard when playback stopped
// (internal/session/truncate.go). Proportions are exact floor divisions.
module Truncation {
  import opened Audio
  import opened Utf8
  import opened Conversations

  // OutOfRange stands for a slice expression Go would panic on.
  datatype Trim = Trimmed(text: Text) | OutOfRange

  // ---- tier 1: character alignment ----------------------------------------------------

  // The smallest index of a character whose audio starts at or after the cut.
  function KeepRunes(align: seq<CharTiming>, cutMs: int, keep: nat): (k: nat)
    ensures k <= keep
    decreases |align|
  {
    if align == [] then keep
    else if align[0].startMs >= cutMs && align[0].charIndex < keep then
      KeepRunes(align[1..], cutMs, align[0].charIndex)
    else KeepRunes(align[1..], cutMs, keep)
  }

  function TrimByAlignment(text: Text, align: seq<CharTiming>, cutBytes: nat): Text {
    var runes := Runes(text);
    Encode(runes[..KeepRunes(align, BytesToMs(cutBytes), |runes|)])
  }

  // ---- tiers 2 and 3: segments --------------------------------------------------------

  // Runes of an n-rune segment heard x bytes into its d bytes of audio.
  function Proportion(n: nat, x: nat, d: nat): (k: nat)
    requires 0 < d && x <= d
    ensures k <= n
  {
    ProportionBound(n, x, d);
    n * x / d
  }

  lemma ProportionBound(n: nat, x: nat, d: nat)
    requires 0 < d && x <= d
    ensures n * x / d <= n
  {
    assert n * x <= n * d;
    assert n * d / d == n;
  }

  predicate SegmentInText(seg: Segment, text: Text) {
    seg.textStart <= seg.textEnd <= |text|
  }

  function KeepOfSegment(text: Text, seg: Segment, cut: nat): nat
    requires SegmentInText(seg, text) && seg.audioStart < cut < seg.audioEnd
  {
    var runes := Runes(text[seg.textStart..seg.textEnd]);
    var n := Proportion(|runes|, cut - seg.audioStart, seg.audioEnd - seg.audioStart);
    seg.textStart + |Encode(runes[..n])|
  }

  datatype Keep = Bytes(count: nat) | Panic

  function KeepBytes(text: Text, segs: seq<Segment>, cut: nat, keep: nat): Keep
    decreases |segs|
  {
    if segs == [] then Bytes(keep)
    else if segs[0].audioEnd <= cut then KeepBytes(text, segs[1..], cut, segs[0].textEnd)
    else if segs[0].audioStart >= cut then Bytes(keep)
    else if !SegmentInText(segs[0], text) then Panic
    else Bytes(KeepOfSegment(text, segs[0], cut))
  }

  function TrimBySegments(text: Text, segs: seq<Segment>, cut: nat): Trim {
    match KeepBytes(text, segs, cut, 0)
    case Panic => OutOfRange
    case Bytes(keep) => if keep > |text| then OutOfRange else Trimmed(text[..keep])
  }

  function WholeResponse(text: Text, totalBytes: nat): seq<Segment> {
    [Segment(0, |text|, 0, totalBytes)]
  }

  function TrimText(text: Text, segs: seq<Segment>, align: seq<CharTiming>, cut: int, totalBytes: nat): Trim {
    if cut >= totalBytes || text == [] then Trimmed(text)
    else if cut <= 0 then Trimmed([])
    else if align != [] then Trimmed(TrimByAlignment(text, align, cut))
    else TrimBySegments(text, if segs == [] then WholeResponse(text, totalBytes) else segs, cut)
  }

  // ---- what segments must look like -----------------------------------------------------

  // segs tile text from t to tEnd and audio from a to aEnd without gaps.
  ghost predicate Tiled(segs: seq<Segment>, t: nat, a: nat, tEnd: nat, aEnd: nat)
    decreases |segs|
  {
    if segs == [] then t == tEnd && a == aEnd
    else
      && segs[0].textStart == t <= segs[0].textEnd
      && segs[0].audioStart == a <= segs[0].audioEnd
      && Tiled(segs[1..], segs[0].textEnd, segs[0].audioEnd, tEnd, aEnd)
  }

  // The recorded segments cover a prefix of the text and of the audio, and
  // every span ends between two runes.
  ghost predicate Fits(text: Text, segs: seq<Segment>, totalBytes: nat) {
    && (exists tEnd: nat, aEnd: nat :: Tiled(segs, 0, 0, tEnd, aEnd) && tEnd <= |text| && aEnd <= totalBytes)
    && RuneAligned(text, segs)
  }

  ghost predicate RuneAligned(text: Text, segs: seq<Segment>) {
    forall i :: 0 <= i < |segs| ==> Boundary(text, segs[i].textEnd)
  }

  lemma {:induction false} TiledGrows(segs: seq<Segment>, t: nat, a: nat, tEnd: nat, aEnd: nat)
    requires Tiled(segs, t, a, tEnd, aEnd)
    ensures t <= tEnd && a <= aEnd
    decreases |segs|
  {
    if segs != [] {
      TiledGrows(segs[1..], segs[0].textEnd, segs[0].audioEnd, tEnd, aEnd);
    }
  }

  // ---- arithmetic ---------------------------------------------------------------------------

  lemma DivMonotone(a: nat, b: nat, d: nat)
    requires a <= b && 0 < d
    ensures a / d <= b / d
  {
    var p, q := a / d, b / d;
    assert d * p <= a && b < d * (q + 1);
    assert p >= q + 1 ==> d * p >= d * (q + 1);
  }

  lemma ProportionMonotone(n: nat, x1: nat, x2: nat, d: nat)
    requires 0 < d && x1 <= x2 <= d
    ensures Proportion(n, x1, d) <= Proportion(n, x2, d)
  {
    assert n * x1 <= n * x2;
    DivMonotone(n * x1, n * x2, d);
  }

  // ---- one segment ----------------------------------------------------------------------------

  lemma SliceValid(text: Text, s: nat, e: nat)
    requires Valid(text) && s <= e <= |text| && Boundary(text, s) && Boundary(text, e)
    ensures Valid(text[s..e])
    ensures forall k :: 0 <= k <= e - s && Boundary(text[s..e], k) ==> Boundary(text, s + k)
  {
    hide DecodeRune;
    BoundarySplits(text, e);
    assert text == text[..e] + text[e..];
    BoundaryAppend(text[..e], text[e..], s);
    BoundarySplits(text[..e], s);
    assert text[..e][s..] == text[s..e];
    forall k | 0 <= k <= e - s && Boundary(text[s..e], k) ensures Boundary(text, s + k) {
      BoundaryShift(text[..e], s, k);
      BoundaryAppend(text[..e], text[e..], s + k);
    }
  }

  lemma {:induction false} EncodeGrows(rs: seq<Rune>, i: nat, j: nat)
    requires i <= j <= |rs|
    ensures |Encode(rs[..i])| <= |Encode(rs[..j])|
    decreases i
  {
    hide EncodeRune;
    if i > 0 {
      assert rs[..i][1..] == rs[1..][..i - 1];
      assert rs[..j][1..] == rs[1..][..j - 1];
      EncodeGrows(rs[1..], i - 1, j - 1);
    }
  }

  lemma KeepOfSegmentFits(text: Text, seg: Segment, cut: nat)
    requires Valid(text) && SegmentInText(seg, text) && seg.audioStart < cut < seg.audioEnd
    requires Boundary(text, seg.textStart) && Boundary(text, seg.textEnd)
    ensures seg.textStart <= KeepOfSegment(text, seg, cut) <= seg.textEnd
    ensures Boundary(text, KeepOfSegment(text, seg, cut))
  {
    hide DecodeRune;
    hide Encode;
    var span := text[seg.textStart..seg.textEnd];
    SliceValid(text, seg.textStart, seg.textEnd);
    var runes := Runes(span);
    var n := Proportion(|runes|, cut - seg.audioStart, seg.audioEnd - seg.audioStart);
    EncodeIsPrefix(span, n);
  }

  lemma KeepOfSegmentMonotone(text: Text, seg: Segment, c1: nat, c2: nat)
    requires SegmentInText(seg, text) && seg.audioStart < c1 <= c2 < seg.audioEnd
    ensures KeepOfSegment(text, seg, c1) <= KeepOfSegment(text, seg, c2)
  {
    var runes := Runes(text[seg.textStart..seg.textEnd]);
    var d := seg.audioEnd - seg.audioStart;
    ProportionMonotone(|runes|, c1 - seg.audioStart, c2 - seg.audioStart, d);
    EncodeGrows(runes, Proportion(|runes|, c1 - seg.audioStart, d), Proportion(|runes|, c2 - seg.audioStart, d));
  }

  // ---- all segments ------------------------------------------------------------------------------

  lemma {:induction false} KeepBytesFits(text: Text, segs: seq<Segment>, cut: nat, t: nat, a: nat, tEnd: nat, aEnd: nat)
    requires Valid(text) && Tiled(segs, t, a, tEnd, aEnd) && tEnd <= |text|
    requires Boundary(text, t) && RuneAligned(text, segs)
    ensures var k := KeepBytes(text, segs, cut, t);
            k.Bytes? && t <= k.count <= tEnd && Boundary(text, k.count)
    decreases |segs|
  {
    hide KeepOfSegment;
    TiledGrows(segs, t, a, tEnd, aEnd);
    if segs != [] {
      TiledGrows(segs[1..], segs[0].textEnd, segs[0].audioEnd, tEnd, aEnd);
      if segs[0].audioEnd <= cut {
        KeepBytesFits(text, segs[1..], cut, segs[0].textEnd, segs[0].audioEnd, tEnd, aEnd);
      } else if segs[0].audioStart < cut {
        KeepOfSegmentFits(text, segs[0], cut);
      }
    }
  }

  lemma {:induction false} KeepBytesMonotone(text: Text, segs: seq<Segment>, c1: nat, c2: nat, t: nat, a: nat,
                                             tEnd: nat, aEnd: nat)
    requires Valid(text) && Tiled(segs, t, a, tEnd, aEnd) && tEnd <= |text| && c1 <= c2
    requires Boundary(text, t) && RuneAligned(text, segs)
    ensures KeepBytes(text, segs, c1, t).Bytes? && KeepBytes(text, segs, c2, t).Bytes?
    ensures KeepBytes(text, segs, c1, t).count <= KeepBytes(text, segs, c2, t).count
    decreases |segs|
  {
    hide KeepOfSegment;
    KeepBytesFits(text, segs, c1, t, a, tEnd, aEnd);
    KeepBytesFits(text, segs, c2, t, a, tEnd, aEnd);
    if segs != [] {
      var seg := segs[0];
      TiledGrows(segs[1..], seg.textEnd, seg.audioEnd, tEnd, aEnd);
      if seg.audioEnd <= c1 {
        KeepBytesMonotone(text, segs[1..], c1, c2, seg.textEnd, seg.audioEnd, tEnd, aEnd);
      } else if seg.audioStart < c1 {
        KeepOfSegmentFits(text, seg, c1);
        if seg.audioEnd <= c2 {
          KeepBytesFits(text, segs[1..], c2, seg.textEnd, seg.audioEnd, tEnd, aEnd);
        } else {
          KeepOfSegmentMonotone(text, seg, c1, c2);
        }
      }
    }
  }

  lemma {:induction false} KeepRunesMonotone(align: seq<CharTiming>, ms1: int, ms2: int, k1: nat, k2: nat)
    requires ms1 <= ms2 && k1 <= k2
    ensures KeepRunes(align, ms1, k1) <= KeepRunes(align, ms2, k2)
    decreases |align|
  {
    if align != [] {
      var c := align[0].charIndex;
      var k1' := if align[0].startMs >= ms1 && c < k1 then c else k1;
      var k2' := if align[0].startMs >= ms2 && c < k2 then c else k2;
      KeepRunesMonotone(align[1..], ms1, ms2, k1', k2');
    }
  }

  lemma WholeResponseFits(text: Text, totalBytes: nat)
    ensures Fits(text, WholeResponse(text, totalBytes), totalBytes)
  {
    WholeTextIsBoundary(text);
    var segs := WholeResponse(text, totalBytes);
    assert segs[1..] == [];
    assert Tiled(segs, 0, 0, |text|, totalBytes);
  }

  // ---- the documented invariants -------------------------------------------------------------------

  // The text kept at a cut is a prefix of the text that ends between runes, and
  // is all of it once the cut reaches the end of the audio.
  lemma TrimIsPrefix(text: Text, segs: seq<Segment>, align: seq<CharTiming>, cut: int, totalBytes: nat)
    requires Valid(text) && Fits(text, segs, totalBytes)
    ensures var r := TrimText(text, segs, align, cut, totalBytes);
            && r.Trimmed? && r.text <= text
            && Valid(r.text)
            && (cut >= totalBytes ==> r.text == text)
            && (cut <= 0 < totalBytes ==> r.text == [])
  {
    if 0 < cut < totalBytes && text != [] {
      if align != [] {
        var runes := Runes(text);
        EncodeIsPrefix(text, KeepRunes(align, BytesToMs(cut), |runes|));
        var r := TrimByAlignment(text, align, cut);
        BoundarySplits(text, |r|);
        assert r == text[..|r|];
      } else {
        WholeResponseFits(text, totalBytes);
        var used := if segs == [] then WholeResponse(text, totalBytes) else segs;
        var tEnd: nat, aEnd: nat :| Tiled(used, 0, 0, tEnd, aEnd) && tEnd <= |text| && aEnd <= totalBytes;
        KeepBytesFits(text, used, cut, 0, 0, tEnd, aEnd);
        BoundarySplits(text, KeepBytes(text, used, cut, 0).count);
      }
    }
  }

  // Hearing more never keeps less, in whichever tier the item falls.
  lemma TrimIsMonotone(text: Text, segs: seq<Segment>, align: seq<CharTiming>, c1: int, c2: int, totalBytes: nat)
    requires Valid(text) && Fits(text, segs, totalBytes) && c1 <= c2
    ensures TrimText(text, segs, align, c1, totalBytes).Trimmed? && TrimText(text, segs, align, c2, totalBytes).Trimmed?
    ensures TrimText(text, segs, align, c1, totalBytes).text <= TrimText(text, segs, align, c2, totalBytes).text
  {
    hide TrimByAlignment;
    hide TrimBySegments;
    TrimIsPrefix(text, segs, align, c1, totalBytes);
    TrimIsPrefix(text, segs, align, c2, totalBytes);
    if 0 < c1 && c2 < totalBytes && text != [] {
      if align != [] {
        AlignmentMonotone(text, align, c1, c2);
      } else {
        WholeResponseFits(text, totalBytes);
        SegmentsMonotone(text, if segs == [] then WholeResponse(text, totalBytes) else segs, c1, c2, totalBytes);
      }
    }
  }

  lemma AlignmentMonotone(text: Text, align: seq<CharTiming>, c1: nat, c2: nat)
    requires Valid(text) && c1 <= c2
    ensures TrimByAlignment(text, align, c1) <= TrimByAlignment(text, align, c2) <= text
  {
    hide Encode;
    var runes := Runes(text);
    DivMonotone(c1, c2, 48);
    var k1 := KeepRunes(align, BytesToMs(c1), |runes|);
    var k2 := KeepRunes(align, BytesToMs(c2), |runes|);
    KeepRunesMonotone(align, BytesToMs(c1), BytesToMs(c2), |runes|, |runes|);
    EncodeIsPrefix(text, k1);
    EncodeIsPrefix(text, k2);
    EncodeGrows(runes, k1, k2);
  }

  lemma SegmentsMonotone(text: Text, segs: seq<Segment>, c1: nat, c2: nat, totalBytes: nat)
    requires Valid(text) && Fits(text, segs, totalBytes) && c1 <= c2
    ensures TrimBySegments(text, segs, c1).Trimmed? && TrimBySegments(text, segs, c2).Trimmed?
    ensures TrimBySegments(text, segs, c1).text <= TrimBySegments(text, segs, c2).text
  {
    var tEnd: nat, aEnd: nat :| Tiled(segs, 0, 0, tEnd, aEnd) && tEnd <= |text| && aEnd <= totalBytes;
    KeepBytesFits(text, segs, c1, 0, 0, tEnd, aEnd);
    KeepBytesFits(text, segs, c2, 0, 0, tEnd, aEnd);
    KeepBytesMonotone(text, segs, c1, c2, 0, 0, tEnd, aEnd);
  }

  // ---- how much is kept ----------------------------------------------------------------------------

  lemma {:induction false} KeepRunesIsFirst(align: seq<CharTiming>, cutMs: int, keep: nat)
    ensures var k := KeepRunes(align, cutMs, keep);
            && (forall i :: 0 <= i < |align| && align[i].startMs >= cutMs ==> k <= align[i].charIndex)
            && (k == keep || exists i :: 0 <= i < |align| && align[i].startMs >= cutMs && align[i].charIndex == k)
    decreases |align|
  {
    if align != [] {
      var keep' := if align[0].startMs >= cutMs && align[0].charIndex < keep then align[0].charIndex else keep;
      var rest := align[1..];
      KeepRunesIsFirst(rest, cutMs, keep');
      var k := KeepRunes(align, cutMs, keep);
      forall i | 0 <= i < |align| && align[i].startMs >= cutMs ensures k <= align[i].charIndex {
        if i > 0 { assert align[i] == rest[i - 1]; }
      }
      if k != keep && k != keep' {
        var i :| 0 <= i < |rest| && rest[i].startMs >= cutMs && rest[i].charIndex == k;
        assert align[i + 1].startMs >= cutMs && align[i + 1].charIndex == k;
      } else if k != keep {
        assert align[0].startMs >= cutMs && align[0].charIndex == k;
      }
    }
  }

  // With alignment, the text is cut right before the first of its characters whose
  // audio starts at the cut or later, and nowhere if there is none.
  lemma AlignmentCutsThere(text: Text, segs: seq<Segment>, align: seq<CharTiming>, cut: int, totalBytes: nat)
    requires Valid(text) && text != [] && align != [] && 0 < cut < totalBytes
    ensures var r := TrimText(text, segs, align, cut, totalBytes);
            && r.Trimmed?
            && var n := |Runes(r.text)|;
               && n <= |Runes(text)| && Runes(r.text) == Runes(text)[..n]
               && (forall i :: 0 <= i < |align| && align[i].startMs >= cut / 48 ==> n <= align[i].charIndex)
               && (n == |Runes(text)|
                   || exists i :: 0 <= i < |align| && align[i].startMs >= cut / 48 && align[i].charIndex == n)
  {
    hide Runes;
    hide Encode;
    var runes := Runes(text);
    var k := KeepRunes(align, cut / 48, |runes|);
    KeepRunesIsFirst(align, cut / 48, |runes|);
    EncodeIsPrefix(text, k);
    var r := Encode(runes[..k]);
    assert text[..|r|] == r;
  }

  // k of n runes are the whole ones in the share x / d.
  predicate Share(k: nat, n: nat, x: nat, d: nat) {
    k * d <= n * x < (k + 1) * d
  }

  lemma ProportionIsShare(n: nat, x: nat, d: nat)
    requires 0 < d && x <= d
    ensures Share(Proportion(n, x, d), n, x, d)
  {
    var q, m := n * x / d, n * x;
    assert m == q * d + m % d;
    assert (q + 1) * d == q * d + d;
  }

  // What is kept of one segment: all of it if it has been heard to the end, its
  // proportional share of runes if the cut falls inside, and nothing from there on.
  ghost predicate KeepsOf(text: Text, seg: Segment, cut: nat, keep: nat) {
    && (seg.audioEnd <= cut ==> seg.textEnd <= keep)
    && (cut <= seg.audioStart && cut < seg.audioEnd ==> keep <= seg.textStart)
    && (seg.audioStart < cut < seg.audioEnd ==>
          && seg.textStart <= keep <= seg.textEnd <= |text|
          && Share(RuneCount(text[seg.textStart..keep]), RuneCount(text[seg.textStart..seg.textEnd]),
                   cut - seg.audioStart, seg.audioEnd - seg.audioStart))
  }

  lemma StraddledKeeps(text: Text, seg: Segment, cut: nat)
    requires Valid(text) && SegmentInText(seg, text) && seg.audioStart < cut < seg.audioEnd
    requires Boundary(text, seg.textStart) && Boundary(text, seg.textEnd)
    ensures KeepsOf(text, seg, cut, KeepOfSegment(text, seg, cut))
  {
    hide DecodeRune;
    hide Encode;
    hide Runes;
    hide RuneCount;
    hide Valid;
    hide Boundary;
    hide Proportion;
    hide Share;
    KeepOfSegmentFits(text, seg, cut);
    SliceValid(text, seg.textStart, seg.textEnd);
    var span := text[seg.textStart..seg.textEnd];
    var n := Proportion(|Runes(span)|, cut - seg.audioStart, seg.audioEnd - seg.audioStart);
    EncodeIsPrefix(span, n);
    var e := Encode(Runes(span)[..n]);
    assert text[seg.textStart..seg.textStart + |e|] == span[..|e|];
    RuneCountIsLength(span);
    RuneCountIsLength(span[..|e|]);
    ProportionIsShare(|Runes(span)|, cut - seg.audioStart, seg.audioEnd - seg.audioStart);
  }

  lemma {:induction false} SegmentsShare(text: Text, segs: seq<Segment>, cut: nat, t: nat, a: nat, tEnd: nat, aEnd: nat,
                                         i: nat)
    requires Valid(text) && Tiled(segs, t, a, tEnd, aEnd) && tEnd <= |text| && i < |segs|
    requires Boundary(text, t) && RuneAligned(text, segs)
    ensures KeepBytes(text, segs, cut, t).Bytes? && KeepsOf(text, segs[i], cut, KeepBytes(text, segs, cut, t).count)
    decreases |segs|
  {
    hide KeepOfSegment;
    hide Share;
    hide RuneCount;
    KeepBytesFits(text, segs, cut, t, a, tEnd, aEnd);
    var seg, rest := segs[0], segs[1..];
    TiledGrows(rest, seg.textEnd, seg.audioEnd, tEnd, aEnd);
    if seg.audioEnd <= cut {
      if i > 0 {
        SegmentsShare(text, rest, cut, seg.textEnd, seg.audioEnd, tEnd, aEnd, i - 1);
      } else {
        KeepBytesFits(text, rest, cut, seg.textEnd, seg.audioEnd, tEnd, aEnd);
      }
    } else {
      if i > 0 { TiledAfter(rest, seg.textEnd, seg.audioEnd, tEnd, aEnd, i - 1); }
      if seg.audioStart < cut {
        KeepOfSegmentFits(text, seg, cut);
        StraddledKeeps(text, seg, cut);
      }
    }
  }

  lemma {:induction false} TiledAfter(segs: seq<Segment>, t: nat, a: nat, tEnd: nat, aEnd: nat, i: nat)
    requires Tiled(segs, t, a, tEnd, aEnd) && i < |segs|
    ensures t <= segs[i].textStart && a <= segs[i].audioStart <= segs[i].audioEnd
    decreases |segs|
  {
    if i > 0 { TiledAfter(segs[1..], segs[0].textEnd, segs[0].audioEnd, tEnd, aEnd, i - 1); }
  }

  // With segments and no alignment, every segment keeps its part; without either, the
  // text keeps the share of its runes that was heard of the whole.
  lemma SegmentsKeepTheirShare(text: Text, segs: seq<Segment>, cut: int, totalBytes: nat)
    requires Valid(text) && text != [] && Fits(text, segs, totalBytes) && 0 < cut < totalBytes
    ensures var r := TrimText(text, segs, [], cut, totalBytes);
            && r.Trimmed? && r.text <= text
            && (forall i :: 0 <= i < |segs| ==> KeepsOf(text, segs[i], cut, |r.text|))
            && (segs == [] ==> Share(RuneCount(r.text), RuneCount(text), cut, totalBytes))
  {
    hide KeepsOf;
    hide KeepBytes;
    hide RuneCount;
    TrimIsPrefix(text, segs, [], cut, totalBytes);
    WholeResponseFits(text, totalBytes);
    var used := if segs == [] then WholeResponse(text, totalBytes) else segs;
    var tEnd: nat, aEnd: nat :| Tiled(used, 0, 0, tEnd, aEnd) && tEnd <= |text| && aEnd <= totalBytes;
    forall i | 0 <= i < |used|
      ensures KeepBytes(text, used, cut, 0).Bytes? && KeepsOf(text, used[i], cut, KeepBytes(text, used, cut, 0).count)
    {
      SegmentsShare(text, used, cut, 0, 0, tEnd, aEnd, i);
    }
    if segs == [] { WholeShare(text, totalBytes, cut, KeepBytes(text, used, cut, 0).count); }
  }

  lemma WholeShare(text: Text, totalBytes: nat, cut: nat, keep: nat)
    requires KeepsOf(text, WholeResponse(text, totalBytes)[0], cut, keep) && 0 < cut < totalBytes
    ensures keep <= |text| && Share(RuneCount(text[..keep]), RuneCount(text), cut, totalBytes)
  {
    hide RuneCount;
    assert text[0..keep] == text[..keep] && text[0..|text|] == text;
  }

  // ---- the loops -----------------------------------------------------------------------------------

  method TrimByAlignmentLoop(text: Text, align: seq<CharTiming>, cutBytes: nat) returns (r: Text)
    ensures r == TrimByAlignment(text, align, cutBytes)
  {
    var cutMs := BytesToMs(cutBytes);
    var runes := Runes(text);
    var keep: nat := |runes|;
    for i := 0 to |align|
      invariant keep <= |runes|
      invariant KeepRunes(align, cutMs, |runes|) == KeepRunes(align[i..], cutMs, keep)
    {
      assert align[i..][1..] == align[i + 1..];
      if align[i].startMs >= cutMs {
        if align[i].charIndex < keep { keep := align[i].charIndex; }
      }
    }
    r := Encode(runes[..keep]);
  }

  method TrimBySegmentsLoop(text: Text, segs: seq<Segment>, cut: nat) returns (r: Trim)
    ensures r == TrimBySegments(text, segs, cut)
  {
    hide Runes;
    hide Encode;
    hide Proportion;
    var keep: nat := 0;
    for i := 0 to |segs|
      invariant KeepBytes(text, segs, cut, 0) == KeepBytes(text, segs[i..], cut, keep)
    {
      var seg := segs[i];
      assert segs[i..][1..] == segs[i + 1..];
      if seg.audioEnd <= cut {
        keep := seg.textEnd;
        continue;
      }
      if seg.audioStart >= cut { break; }
      if !(seg.textStart <= seg.textEnd <= |text|) { return OutOfRange; }
      var runes := Runes(text[seg.textStart..seg.textEnd]);
      var n := Proportion(|runes|, cut - seg.audioStart, seg.audioEnd - seg.audioStart);
      keep := seg.textStart + |Encode(runes[..n])|;
      break;
    }
    r := if keep > |text| then OutOfRange else Trimmed(text[..keep]);
  }

  method TrimTextNow(text: Text, segs: seq<Segment>, align: seq<CharTiming>, cut: int, totalBytes: nat)
    returns (r: Trim)
    ensures r == TrimText(text, segs, align, cut, totalBytes)
  {
    if cut >= totalBytes || |text| == 0 { return Trimmed(text); }
    if cut <= 0 { return Trimmed([]); }
    if |align| > 0 {
      var kept := TrimByAlignmentLoop(text, align, cut);
      return Trimmed(kept);
    }
    r := TrimBySegmentsLoop(text, if segs == [] then WholeResponse(text, totalBytes) else segs, cut);
  }
}
