// UTF-8 decoding as the Go standard library's unicode/utf8 package does it:
// an invalid or truncated sequence decodes to RUNE_ERROR with size 1.
module Utf8 {
  import opened Audio

  type Rune = nat
  type Text = Bytes

  const RUNE_ERROR: Rune := 0xFFFD

  datatype Decoded = Decoded(rune: Rune, size: nat)

  // Sequence length announced by a leading byte; 0 when it cannot lead.
  function LeadLength(b0: Byte): nat {
    if b0 < 0x80 then 1
    else if 0xC2 <= b0 <= 0xDF then 2
    else if 0xE0 <= b0 <= 0xEF then 3
    else if 0xF0 <= b0 <= 0xF4 then 4
    else 0
  }

  predicate SecondOk(b0: Byte, b1: Byte) {
    if b0 == 0xE0 then 0xA0 <= b1 <= 0xBF
    else if b0 == 0xED then 0x80 <= b1 <= 0x9F
    else if b0 == 0xF0 then 0x90 <= b1 <= 0xBF
    else if b0 == 0xF4 then 0x80 <= b1 <= 0x8F
    else 0x80 <= b1 <= 0xBF
  }

  predicate Continuation(b: Byte) {
    0x80 <= b <= 0xBF
  }

  // The payload of one byte of an encoding, once its tag is removed.
  function Bits(b: Byte, tag: int): int {
    b as int - tag
  }

  function DecodeRune(b: Bytes): (d: Decoded)
    ensures b == [] <==> d.size == 0
    ensures d.size <= |b| && d.size <= 4
  {
    if b == [] then Decoded(RUNE_ERROR, 0)
    else
      var n := LeadLength(b[0]);
      if n == 1 then Decoded(b[0], 1)
      else if n == 0 || |b| < n || !SecondOk(b[0], b[1]) then Decoded(RUNE_ERROR, 1)
      else if n == 2 then Decoded(Bits(b[0], 0xC0) * 64 + Bits(b[1], 0x80), 2)
      else if !Continuation(b[2]) then Decoded(RUNE_ERROR, 1)
      else if n == 3 then Decoded(Bits(b[0], 0xE0) * 4096 + Bits(b[1], 0x80) * 64 + Bits(b[2], 0x80), 3)
      else if !Continuation(b[3]) then Decoded(RUNE_ERROR, 1)
      else Decoded(Bits(b[0], 0xF0) * 262144 + Bits(b[1], 0x80) * 4096 + Bits(b[2], 0x80) * 64 + Bits(b[3], 0x80), 4)
  }

  // Whether b begins with a full encoding; an invalid one is full, since it
  // will decode as a one-byte error whatever follows.
  predicate FullRune(b: Bytes) {
    b != [] &&
    var n := LeadLength(b[0]);
    || n <= 1
    || |b| >= n
    || (|b| > 1 && !SecondOk(b[0], b[1]))
    || (|b| > 2 && !Continuation(b[2]))
  }

  predicate Invalid(d: Decoded) {
    d.rune == RUNE_ERROR && d.size == 1
  }

  function Runes(b: Bytes): seq<Rune>
    decreases |b|
  {
    if b == [] then [] else
      var d := DecodeRune(b);
      [d.rune] + Runes(b[d.size..])
  }

  function RuneCount(b: Bytes): nat
    decreases |b|
  {
    if b == [] then 0 else 1 + RuneCount(b[DecodeRune(b).size..])
  }

  predicate Valid(b: Bytes)
    decreases |b|
  {
    b == [] ||
    var d := DecodeRune(b);
    !Invalid(d) && Valid(b[d.size..])
  }

  // k bytes into b, decoding from the start is between two runes.
  predicate Boundary(b: Bytes, k: nat)
    decreases |b|
  {
    k == 0 ||
    (b != [] &&
     var d := DecodeRune(b);
     d.size <= k && Boundary(b[d.size..], k - d.size))
  }

  // Surrogates and values past U+10FFFF encode as RUNE_ERROR.
  function EncodeRune(r: Rune): Bytes {
    if 0xD800 <= r < 0xE000 || r >= 0x110000 then [0xEF, 0xBF, 0xBD]
    else if r < 0x80 then [r]
    else if r < 0x800 then [0xC0 + r / 64, 0x80 + r % 64]
    else if r < 0x10000 then [0xE0 + r / 4096, 0x80 + r / 64 % 64, 0x80 + r % 64]
    else [0xF0 + r / 262144, 0x80 + r / 4096 % 64, 0x80 + r / 64 % 64, 0x80 + r % 64]
  }

  // Go's string([]rune): every rune re-encoded.
  function Encode(rs: seq<Rune>): Bytes {
    if rs == [] then [] else EncodeRune(rs[0]) + Encode(rs[1..])
  }

  predicate RuneStart(b: Byte) {
    !(0x80 <= b <= 0xBF)
  }

  // Start of the last rune: the nearest byte at or before i that can start a
  // rune, looking no further back than lim.
  function LastStart(b: Bytes, i: int, lim: int): int
    requires -1 <= i < |b| && -1 <= lim
    decreases i + 1
  {
    if i < lim || i < 0 then i
    else if RuneStart(b[i]) then i
    else LastStart(b, i - 1, lim)
  }

  function DecodeLastRune(b: Bytes): (d: Decoded)
    ensures b == [] <==> d.size == 0
    ensures d.size <= |b| && d.size <= 4
  {
    if b == [] then Decoded(RUNE_ERROR, 0)
    else if b[|b| - 1] < 0x80 then Decoded(b[|b| - 1], 1)
    else
      var lim := if |b| < 4 then 0 else |b| - 4;
      var found := LastStart(b, |b| - 2, lim);
      var start := if found < 0 then 0 else found;
      if start > |b| - 1 then Decoded(RUNE_ERROR, 1)
      else
        var d := DecodeRune(b[start..]);
        if start + d.size != |b| then Decoded(RUNE_ERROR, 1) else d
  }

  // unicode.IsSpace.
  predicate IsSpace(r: Rune) {
    || 0x09 <= r <= 0x0D
    || r in {0x20, 0x85, 0xA0, 0x1680, 0x2028, 0x2029, 0x202F, 0x205F, 0x3000}
    || 0x2000 <= r <= 0x200A
  }

  // strings.TrimSpace(b) == "".
  predicate Blank(b: Bytes)
    decreases |b|
  {
    b == [] ||
    var d := DecodeRune(b);
    IsSpace(d.rune) && Blank(b[d.size..])
  }

  // ---- lemmas ------------------------------------------------------------------

  // A full rune decodes the same whatever follows it.
  lemma FullRuneIsStable(b: Bytes, more: Bytes)
    requires FullRune(b)
    ensures DecodeRune(b + more) == DecodeRune(b)
    ensures FullRune(b + more)
  {
    assert (b + more)[0] == b[0];
    assert |b| > 1 ==> (b + more)[1] == b[1];
    assert |b| > 2 ==> (b + more)[2] == b[2];
    assert |b| > 3 ==> (b + more)[3] == b[3];
  }

  lemma ValidRuneIsFull(b: Bytes)
    requires b != [] && !Invalid(DecodeRune(b))
    ensures FullRune(b)
  {
  }

  lemma {:induction false} RuneCountIsLength(b: Bytes)
    ensures |Runes(b)| == RuneCount(b)
    decreases |b|
  {
    if b != [] {
      RuneCountIsLength(b[DecodeRune(b).size..]);
    }
  }

  lemma {:induction false} ValidAppend(a: Bytes, b: Bytes)
    requires Valid(a)
    ensures Valid(a + b) == Valid(b)
    decreases |a|
  {
    if a == [] {
      assert a + b == b;
    } else {
      var d := DecodeRune(a);
      FullRuneIsStable(a, b);
      assert (a + b)[d.size..] == a[d.size..] + b;
      ValidAppend(a[d.size..], b);
    }
  }

  lemma {:induction false} BoundaryAppend(a: Bytes, b: Bytes, k: nat)
    requires Valid(a) && k <= |a|
    ensures Boundary(a + b, k) == Boundary(a, k)
    decreases |a|
  {
    if a != [] && k != 0 {
      var d := DecodeRune(a);
      FullRuneIsStable(a, b);
      assert (a + b)[d.size..] == a[d.size..] + b;
      if d.size <= k {
        BoundaryAppend(a[d.size..], b, k - d.size);
      }
    }
  }

  lemma {:induction false} WholeTextIsBoundary(b: Bytes)
    ensures Boundary(b, |b|)
    decreases |b|
  {
    if b != [] {
      WholeTextIsBoundary(b[DecodeRune(b).size..]);
    }
  }

  // Boundaries of a suffix that starts at a boundary are boundaries of the whole.
  lemma {:induction false} BoundaryShift(b: Bytes, s: nat, k: nat)
    requires s <= |b| && Boundary(b, s) && Boundary(b[s..], k)
    ensures Boundary(b, s + k)
    decreases |b|
  {
    hide DecodeRune;
    if s == 0 {
      assert b[0..] == b;
    } else {
      var n := DecodeRune(b).size;
      assert b[s..] == b[n..][s - n..];
      BoundaryShift(b[n..], s - n, k);
    }
  }

  lemma PrefixDecodes(b: Bytes, k: nat)
    requires b != [] && k <= |b| && !Invalid(DecodeRune(b)) && DecodeRune(b).size <= k
    ensures DecodeRune(b[..k]) == DecodeRune(b)
  {
    var d := DecodeRune(b);
    assert d.size == LeadLength(b[0]);
    assert b[..k][0] == b[0];
    assert d.size > 1 ==> b[..k][1] == b[1];
    assert d.size > 2 ==> b[..k][2] == b[2];
    assert d.size > 3 ==> b[..k][3] == b[3];
  }

  // Unrolls a prefix of b by its first rune.
  lemma PrefixCons(b: Bytes, k: nat)
    requires b != [] && k <= |b| && !Invalid(DecodeRune(b)) && DecodeRune(b).size <= k
    ensures var n := DecodeRune(b).size;
            && Runes(b[..k]) == [DecodeRune(b).rune] + Runes(b[n..][..k - n])
            && Valid(b[..k]) == Valid(b[n..][..k - n])
  {
    var n := DecodeRune(b).size;
    PrefixDecodes(b, k);
    assert b[..k][n..] == b[n..][..k - n];
  }

  lemma RunesStep(b: Bytes)
    requires b != []
    ensures Runes(b) == [DecodeRune(b).rune] + Runes(b[DecodeRune(b).size..])
  {
  }

  // A cut between runes splits the runes, and keeps validity on both sides.
  lemma {:induction false} BoundarySplits(b: Bytes, k: nat)
    requires Valid(b) && k <= |b| && Boundary(b, k)
    ensures Valid(b[..k]) && Valid(b[k..])
    ensures Runes(b) == Runes(b[..k]) + Runes(b[k..])
    decreases |b|
  {
    hide DecodeRune;
    hide Runes;
    if k == 0 {
      assert b[..0] == [] && b[0..] == b;
      assert Runes([]) == [] by { NoRunes(); }
    } else {
      var n := DecodeRune(b).size;
      var rest := b[n..];
      BoundarySplits(rest, k - n);
      assert b[k..] == rest[k - n..];
      PrefixCons(b, k);
      RunesStep(b);
    }
  }

  lemma NoRunes()
    ensures Runes([]) == []
  {
  }

  lemma EncodeDecoded(b: Bytes)
    requires b != [] && !Invalid(DecodeRune(b))
    ensures EncodeRune(DecodeRune(b).rune) == b[..DecodeRune(b).size]
  {
    var d := DecodeRune(b);
    if d.size == 2 {
      EncodeTwo(b);
    } else if d.size == 3 {
      EncodeThree(b);
    } else if d.size == 4 {
      EncodeFour(b);
    }
  }

  lemma EncodeTwo(b: Bytes)
    requires b != [] && !Invalid(DecodeRune(b)) && DecodeRune(b).size == 2
    ensures EncodeRune(DecodeRune(b).rune) == b[..2]
  {
    assert DecodeRune(b).rune / 64 == Bits(b[0], 0xC0);
  }

  lemma EncodeThree(b: Bytes)
    requires b != [] && !Invalid(DecodeRune(b)) && DecodeRune(b).size == 3
    ensures EncodeRune(DecodeRune(b).rune) == b[..3]
  {
    var r := DecodeRune(b).rune;
    assert r / 64 == Bits(b[0], 0xE0) * 64 + Bits(b[1], 0x80);
    assert r / 4096 == Bits(b[0], 0xE0);
  }

  lemma EncodeFour(b: Bytes)
    requires b != [] && !Invalid(DecodeRune(b)) && DecodeRune(b).size == 4
    ensures EncodeRune(DecodeRune(b).rune) == b[..4]
  {
    var r := DecodeRune(b).rune;
    assert r / 64 == Bits(b[0], 0xF0) * 4096 + Bits(b[1], 0x80) * 64 + Bits(b[2], 0x80);
    assert r / 4096 == Bits(b[0], 0xF0) * 64 + Bits(b[1], 0x80);
    assert r / 262144 == Bits(b[0], 0xF0);
  }

  // Decoding valid text and encoding any number of its runes gives back a
  // prefix of the text that ends between runes.
  lemma {:induction false} EncodeIsPrefix(b: Bytes, n: nat)
    requires Valid(b) && n <= |Runes(b)|
    ensures Encode(Runes(b)[..n]) <= b
    ensures Boundary(b, |Encode(Runes(b)[..n])|)
    ensures Runes(b[..|Encode(Runes(b)[..n])|]) == Runes(b)[..n]
    decreases |b|
  {
    hide DecodeRune;
    hide EncodeRune;
    RuneCountIsLength(b);
    if n == 0 {
      assert Runes(b)[..0] == [];
      assert b[..0] == [];
    } else {
      var d := DecodeRune(b);
      var rest := b[d.size..];
      var rs := Runes(rest);
      EncodeIsPrefix(rest, n - 1);
      var e := Encode(rs[..n - 1]);
      RunesCons(b, n);
      EncodeDecoded(b);
      EncodeCons(d.rune, rs[..n - 1]);
      assert Encode(Runes(b)[..n]) == b[..d.size] + e;
      assert b == b[..d.size] + rest;
      var k := d.size + |e|;
      assert b[..k] == b[..d.size] + e;
      PrefixCons(b, k);
      assert b[d.size..][..k - d.size] == rest[..|e|];
    }
  }

  lemma RunesCons(b: Bytes, n: nat)
    requires b != [] && 0 < n <= |Runes(b)|
    ensures var d := DecodeRune(b);
            && n - 1 <= |Runes(b[d.size..])|
            && Runes(b)[..n] == [d.rune] + Runes(b[d.size..])[..n - 1]
  {
    var d := DecodeRune(b);
    var rs := Runes(b[d.size..]);
    assert Runes(b) == [d.rune] + rs;
  }

  lemma EncodeCons(r: Rune, rs: seq<Rune>)
    ensures Encode([r] + rs) == EncodeRune(r) + Encode(rs)
  {
    assert ([r] + rs)[1..] == rs;
  }

  // ---- the other way round ---------------------------------------------------------

  // A Unicode scalar value.
  predicate Scalar(r: Rune) {
    r < 0xD800 || 0xE000 <= r < 0x110000
  }

  ghost predicate Scalars(rs: seq<Rune>) {
    forall i :: 0 <= i < |rs| ==> Scalar(rs[i])
  }

  // An encoded rune is decoded again, whatever follows it.
  lemma DecodeEncoded(r: Rune, more: Bytes)
    requires Scalar(r)
    ensures DecodeRune(EncodeRune(r) + more) == Decoded(r, |EncodeRune(r)|)
  {
    var b := EncodeRune(r) + more;
    assert forall i :: 0 <= i < |EncodeRune(r)| ==> b[i] == EncodeRune(r)[i];
    if r >= 0x10000 {
      SplitFour(r);
    } else if r >= 0x800 {
      SplitThree(r);
    }
  }

  lemma DivTwice(r: nat, d: nat)
    requires d == 4096 || d == 262144
    ensures r / d == r / (d / 64) / 64
  {
  }

  lemma SplitThree(r: Rune)
    ensures r == r / 4096 * 4096 + r / 64 % 64 * 64 + r % 64
  {
    DivTwice(r, 4096);
    var q := r / 64;
    assert r == q * 64 + r % 64 && q == q / 64 * 64 + q % 64;
  }

  lemma SplitFour(r: Rune)
    ensures r == r / 262144 * 262144 + r / 4096 % 64 * 4096 + r / 64 % 64 * 64 + r % 64
  {
    SplitThree(r);
    DivTwice(r, 262144);
    var q := r / 4096;
    assert q == q / 64 * 64 + q % 64;
  }

  // Encoding and decoding are inverse on scalar values.
  lemma {:induction false} RunesOfEncoded(rs: seq<Rune>)
    requires Scalars(rs)
    ensures Runes(Encode(rs)) == rs && Valid(Encode(rs))
  {
    hide DecodeRune;
    hide EncodeRune;
    if rs != [] {
      var rest := Encode(rs[1..]);
      RunesOfEncoded(rs[1..]);
      DecodeEncoded(rs[0], rest);
      EncodedIsWhole(rs[0]);
      assert Encode(rs)[|EncodeRune(rs[0])|..] == rest;
    }
  }

  lemma EncodedIsWhole(r: Rune)
    requires Scalar(r)
    ensures 0 < |EncodeRune(r)| <= 4 && !Invalid(Decoded(r, |EncodeRune(r)|))
  {
  }

  lemma {:induction false} EncodeAppend(a: seq<Rune>, b: seq<Rune>)
    ensures Encode(a + b) == Encode(a) + Encode(b)
    decreases |a|
  {
    hide EncodeRune;
    if a == [] {
      assert a + b == b;
    } else {
      assert (a + b)[1..] == a[1..] + b;
      EncodeAppend(a[1..], b);
    }
  }

  lemma EncodeOne(r: Rune)
    ensures Encode([r]) == EncodeRune(r)
  {
    assert Encode([r][1..]) == [];
  }

  // The first byte of an encoding leads, the others follow.
  lemma EncodingLeads(r: Rune, i: nat)
    requires Scalar(r) && i < |EncodeRune(r)| && |EncodeRune(r)| > 1
    ensures RuneStart(EncodeRune(r)[i]) <==> i == 0
    ensures EncodeRune(r)[i] >= 0x80
  {
  }

  // The last rune of a text is found from the end.
  lemma DecodeLastEncoded(a: Bytes, r: Rune)
    requires Scalar(r)
    ensures DecodeLastRune(a + EncodeRune(r)) == Decoded(r, |EncodeRune(r)|)
  {
    hide EncodeRune;
    hide DecodeRune;
    var e := EncodeRune(r);
    var b := a + e;
    var n := |a|;
    assert e + [] == e && b[n..] == e;
    DecodeEncoded(r, []);
    EncodedIsWhole(r);
    if |e| > 1 {
      forall k: nat | n <= k < |b| ensures b[k] >= 0x80 && (RuneStart(b[k]) <==> k == n) {
        EncodingLeads(r, k - n);
      }
      LastStartFinds(b, |b| - 2, if |b| < 4 then 0 else |b| - 4, n);
    } else {
      ShortIsAscii(r);
      assert b[|b| - 1] == e[0];
    }
  }

  lemma ShortIsAscii(r: Rune)
    requires Scalar(r) && |EncodeRune(r)| == 1
    ensures r < 0x80 && EncodeRune(r)[0] == r
  {
  }

  lemma {:induction false} LastStartFinds(b: Bytes, i: int, lim: int, n: nat)
    requires lim <= n <= i < |b| && -1 <= lim && RuneStart(b[n])
    requires forall k :: n < k <= i ==> !RuneStart(b[k])
    ensures LastStart(b, i, lim) == n
    decreases i
  {
    if i > n { LastStartFinds(b, i - 1, lim, n); }
  }

  // ---- what may still become a rune ------------------------------------------------------

  // b is the beginning, but not all, of the encoding of r.
  predicate Begins(b: Bytes, r: Rune) {
    Scalar(r) && |b| < |EncodeRune(r)| && EncodeRune(r)[..|b|] == b
  }

  // Bytes are no full rune exactly when more bytes may still make them one.
  lemma FullRuneMeans(b: Bytes)
    requires b != []
    ensures !FullRune(b) <==> exists r :: Begins(b, r)
  {
    if !FullRune(b) {
      MayBecome(b);
    } else {
      forall r ensures !Begins(b, r) {
        if Begins(b, r) { BeginsIsNotFull(b, r); }
      }
    }
  }

  lemma BeginsIsNotFull(b: Bytes, r: Rune)
    requires b != [] && Begins(b, r)
    ensures !FullRune(b)
  {
    var e := EncodeRune(r);
    assert forall i :: 0 <= i < |b| ==> b[i] == e[i];
    assert e + [] == e;
    DecodeEncoded(r, []);
    EncodedIsWhole(r);
  }

  // The lowest second byte that may follow b0.
  function LowestSecond(b0: Byte): Byte {
    if b0 == 0xE0 then 0xA0 else if b0 == 0xF0 then 0x90 else 0x80
  }

  // b with the lowest bytes that complete it.
  function Completed(b: Bytes): Bytes
    requires 0 < |b| < 4
  {
    var n := LeadLength(b[0]);
    var all := if |b| == 1 then b + [LowestSecond(b[0]), 0x80, 0x80] else b + [0x80, 0x80];
    if n <= |all| then all[..n] else all
  }

  lemma MayBecome(b: Bytes)
    requires b != [] && !FullRune(b)
    ensures Begins(b, DecodeRune(Completed(b)).rune)
  {
    var c := Completed(b);
    var d := DecodeRune(c);
    CompletedDecodes(b);
    hide DecodeRune;
    hide EncodeRune;
    hide Completed;
    EncodeDecoded(c);
    assert c[..|c|] == c;
  }

  lemma CompletedDecodes(b: Bytes)
    requires b != [] && !FullRune(b)
    ensures var c := Completed(b);
            var d := DecodeRune(c);
            && |b| < |c| == d.size && c[..|b|] == b && !Invalid(d) && Scalar(d.rune)
  {
  }
}
