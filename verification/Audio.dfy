// PCM constants, millisecond/byte conversion and the loudness test shared by
// the voice-activity detector and the silence gate (internal/audio).
//
// Loudness is compared exactly: for t >= 0, sqrt(sum/n) >= t is stated as
// sum >= n*t*t, so no square root and no rounding enters the model.
module Audio {
  type Byte = b: nat | b < 256
  type Bytes = seq<Byte>

  const BYTES_PER_SAMPLE: nat := 2
  const BYTES_PER_MS: nat := 48
  const FRAME_MS: nat := 20
  const FRAME_BYTES: nat := 960

  function MsToBytes(ms: int): int {
    ms * 48
  }

  // Go division truncates toward zero; byte counts are never negative.
  function BytesToMs(n: nat): nat {
    n / 48
  }

  function AlignDown(n: nat): nat {
    n - n % 2
  }

  // The i-th little-endian signed 16-bit sample.
  function Sample(pcm: Bytes, i: nat): int
    requires 2 * i + 1 < |pcm|
  {
    var u: int := pcm[2 * i] as int + 256 * pcm[2 * i + 1] as int;
    if u < 32768 then u else u - 65536
  }

  // Sum of the squares of the first n samples.
  function SumSquares(pcm: Bytes, n: nat): nat
    requires 2 * n <= |pcm|
  {
    if n == 0 then 0 else SumSquares(pcm, n - 1) + Square(Sample(pcm, n - 1))
  }

  function Square(x: int): nat {
    if x < 0 then (-x) * (-x) else x * x
  }

  // The mean square, over raw samples, at which the normalized RMS of a frame
  // equals threshold.
  function Power(threshold: real): real {
    (threshold * 32767.0) * (threshold * 32767.0)
  }

  // rms(frame) >= threshold for a 20 ms frame, with power == Power(threshold).
  predicate LevelAtLeast(frame: Bytes, power: real)
    requires |frame| == FRAME_BYTES
  {
    SumSquares(frame, FRAME_BYTES / 2) as real >= 480.0 * power
  }

  // The loop of rms and frameRMS.
  method SumOfSquares(frame: Bytes) returns (sum: nat)
    ensures sum == SumSquares(frame, |frame| / 2)
  {
    sum := 0;
    for i := 0 to |frame| / 2
      invariant sum == SumSquares(frame, i)
    {
      sum := sum + Square(Sample(frame, i));
    }
  }

  // ---- what a level is ---------------------------------------------------------

  // Sixteen bits, two's complement, low byte first.
  function LittleEndian(x: int): Bytes
    requires -32768 <= x < 32768
  {
    var u := x % 65536;
    [u % 256, u / 256]
  }

  lemma SampleIsLittleEndian(pcm: Bytes, i: nat, x: int)
    requires -32768 <= x < 32768 && 2 * i + 1 < |pcm| && pcm[2 * i..2 * i + 2] == LittleEndian(x)
    ensures Sample(pcm, i) == x
  {
    assert pcm[2 * i] == pcm[2 * i..2 * i + 2][0] && pcm[2 * i + 1] == pcm[2 * i..2 * i + 2][1];
  }

  // Every sample of pcm is x.
  ghost predicate Constant(pcm: Bytes, x: int) {
    forall i: nat :: 2 * i + 1 < |pcm| ==> Sample(pcm, i) == x
  }

  lemma {:induction false} ConstantSum(pcm: Bytes, x: int, n: nat)
    requires Constant(pcm, x) && 2 * n <= |pcm|
    ensures SumSquares(pcm, n) == n * (x * x)
  {
    if n > 0 {
      ConstantSum(pcm, x, n - 1);
      OneMore(n, x * x);
    }
  }

  lemma OneMore(n: nat, q: int)
    requires n > 0
    ensures n * q == (n - 1) * q + q
  {
  }

  function Magnitude(x: int): real {
    if x < 0 then -x as real else x as real
  }

  // A constant wave is as loud as its samples are large: it reaches threshold t
  // exactly when they reach t of full scale.
  lemma ConstantLevel(frame: Bytes, x: int, t: real)
    requires |frame| == FRAME_BYTES && Constant(frame, x) && t >= 0.0
    ensures LevelAtLeast(frame, Power(t)) <==> Magnitude(x) >= t * 32767.0
  {
    ConstantSum(frame, x, FRAME_BYTES / 2);
    var m, u := Magnitude(x), t * 32767.0;
    assert (480 * (x * x)) as real == 480.0 * (m * m);
    SquaresCompare(m, u);
  }

  lemma SquaresCompare(a: real, b: real)
    requires a >= 0.0 && b >= 0.0
    ensures a * a >= b * b <==> a >= b
  {
    if a < b {
      SquareGrows(a, b);
    } else if b < a {
      SquareGrows(b, a);
    }
  }

  lemma SquareGrows(a: real, b: real)
    requires 0.0 <= a < b
    ensures a * a < b * b
  {
    var diff, sum := b - a, b + a;
    Positive(diff, sum);
    assert diff * sum == b * b - a * a;
  }

  lemma Positive(x: real, y: real)
    requires x > 0.0 && y > 0.0
    ensures x * y > 0.0
  {
  }
}
