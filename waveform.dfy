/**
 * The waveform analysis helpers of main.c. The read-only helpers take the
 * valid prefix `samples[0..n)` as a sequence; the C code passes the array and
 * `n`. Smoothing works in place and keeps the array and `n`.
 */
module Waveform {
  import opened RealSeqs

  /** Capacity of the sample buffer and of the smoothing scratch array. */
  const MaxSamples: nat := 1000

  // ---------------------------------------------------------------------------
  // Minimum, maximum, average

  /** `find_min`: a linear scan starting from a[0]. */
  method FindMin(a: seq<real>) returns (min: real)
    requires |a| >= 1
    ensures min in a
    ensures forall i :: 0 <= i < |a| ==> min <= a[i]
  {
    min := a[0];
    var i := 1;
    while i < |a|
      invariant 1 <= i <= |a|
      invariant min in a[..i]
      invariant forall k :: 0 <= k < i ==> min <= a[k]
    {
      if a[i] < min {
        min := a[i];
      }
      i := i + 1;
    }
  }

  /** `find_max`: a linear scan starting from a[0]. */
  method FindMax(a: seq<real>) returns (max: real)
    requires |a| >= 1
    ensures max in a
    ensures forall i :: 0 <= i < |a| ==> a[i] <= max
  {
    max := a[0];
    var i := 1;
    while i < |a|
      invariant 1 <= i <= |a|
      invariant max in a[..i]
      invariant forall k :: 0 <= k < i ==> a[k] <= max
    {
      if a[i] > max {
        max := a[i];
      }
      i := i + 1;
    }
  }

  /** `calc_average`: the running sum divided by n. */
  method CalcAverage(a: seq<real>) returns (avg: real)
    requires |a| >= 1
    ensures avg == Mean(a)
  {
    var sum := 0.0;
    var i := 0;
    while i < |a|
      invariant 0 <= i <= |a|
      invariant sum == Sum(a[..i])
    {
      assert a[..i + 1] == a[..i] + [a[i]];
      SumSnoc(a[..i], a[i]);
      sum := sum + a[i];
      i := i + 1;
    }
    assert a[..|a|] == a;
    avg := sum / (|a| as real);
  }

  /** What `find_min` and `find_max` return bracket what `calc_average` returns. */
  lemma MinAverageMax(a: seq<real>, min: real, max: real)
    requires |a| >= 1
    requires forall i :: 0 <= i < |a| ==> min <= a[i]
    requires forall i :: 0 <= i < |a| ==> a[i] <= max
    ensures min <= Mean(a) <= max
  {
    assert AllWithin(a, min, max);
    MeanWithin(a, min, max);
  }

  // ---------------------------------------------------------------------------
  // Mean square: `calc_rms` up to its final square root

  /** u * v, kept behind a function so that the solver treats a square as a product. */
  function Product(u: real, v: real): real {
    u * v
  }

  function Square(x: real): real {
    Product(x, x)
  }

  function SumSquares(s: seq<real>): real {
    if s == [] then 0.0 else SumSquares(s[..|s| - 1]) + Square(s[|s| - 1])
  }

  /** sumSq / n; `calc_rms` returns the square root of this value. */
  function MeanSquare(s: seq<real>): real
    requires |s| > 0
  {
    SumSquares(s) / (|s| as real)
  }

  /** The accumulation loop of `calc_rms`, before the `sqrt`. */
  method CalcMeanSquare(a: seq<real>) returns (ms: real)
    requires |a| >= 1
    ensures ms == MeanSquare(a)
    ensures 0.0 <= ms
    ensures ms == 0.0 <==> forall i :: 0 <= i < |a| ==> a[i] == 0.0
  {
    var sumSq := 0.0;
    var i := 0;
    while i < |a|
      invariant 0 <= i <= |a|
      invariant sumSq == SumSquares(a[..i])
    {
      assert a[..i + 1][..i] == a[..i];
      sumSq := sumSq + a[i] * a[i];
      i := i + 1;
    }
    assert a[..|a|] == a;
    ms := sumSq / (|a| as real);
    MeanSquareZero(a);
  }

  lemma ProductPositive(u: real, v: real)
    requires u > 0.0 && v > 0.0
    ensures Product(u, v) > 0.0
  {
    assert u * v > 0.0 * v;
  }

  lemma ProductMonotone(u: real, v: real, w: real)
    requires 0.0 <= u && v <= w
    ensures Product(u, v) <= Product(u, w)
  {
    assert u * v <= u * w;
  }

  /** A square is never negative and is positive away from zero. */
  lemma SquareFacts(x: real)
    ensures 0.0 <= Square(x)
    ensures x != 0.0 ==> Square(x) > 0.0
  {
    if x > 0.0 {
      ProductPositive(x, x);
    } else if x < 0.0 {
      ProductPositive(-x, -x);
      assert Product(-x, -x) == Product(x, x);
    }
  }

  lemma SquareMonotone(u: real, p: real)
    requires 0.0 <= u <= p
    ensures Square(u) <= Square(p)
  {
    ProductMonotone(u, u, p);
    ProductMonotone(p, u, p);
    assert Product(u, p) == Product(p, u);
  }

  /** The sum of squares is non-negative and vanishes exactly on the all-zero signal. */
  lemma {:induction false} SumSquaresZero(s: seq<real>)
    ensures 0.0 <= SumSquares(s)
    ensures SumSquares(s) == 0.0 <==> forall i :: 0 <= i < |s| ==> s[i] == 0.0
  {
    if s != [] {
      var p := s[..|s| - 1];
      var x := s[|s| - 1];
      SumSquaresZero(p);
      SquareFacts(x);
      if forall i :: 0 <= i < |s| ==> s[i] == 0.0 {
        assert forall i :: 0 <= i < |p| ==> p[i] == s[i];
      } else {
        var j :| 0 <= j < |s| && s[j] != 0.0;
        if j < |p| {
          assert p[j] != 0.0;
        }
      }
    }
  }

  /** The mean square is non-negative and zero exactly for the all-zero signal. */
  lemma MeanSquareZero(s: seq<real>)
    requires |s| > 0
    ensures 0.0 <= MeanSquare(s)
    ensures MeanSquare(s) == 0.0 <==> forall i :: 0 <= i < |s| ==> s[i] == 0.0
  {
    SumSquaresZero(s);
  }

  /** Squares of magnitudes in [low, peak] sum to between n * low^2 and n * peak^2. */
  lemma {:induction false} SumSquaresWithin(s: seq<real>, low: real, peak: real)
    requires 0.0 <= low
    requires forall i :: 0 <= i < |s| ==> low <= Abs(s[i]) <= peak
    ensures (|s| as real) * Square(low) <= SumSquares(s) <= (|s| as real) * Square(peak)
  {
    if s != [] {
      var p := s[..|s| - 1];
      var x := s[|s| - 1];
      assert forall i :: 0 <= i < |p| ==> p[i] == s[i];
      SumSquaresWithin(p, low, peak);
      SquareBetween(x, low, peak);
      var m := |p| as real;
      assert SumSquares(s) == SumSquares(p) + Square(x);
      assert (|s| as real) * Square(low) == m * Square(low) + Square(low);
      assert (|s| as real) * Square(peak) == m * Square(peak) + Square(peak);
    }
  }

  lemma SquareBetween(x: real, low: real, peak: real)
    requires 0.0 <= low <= Abs(x) <= peak
    ensures Square(low) <= Square(x) <= Square(peak)
  {
    SquareMonotone(low, Abs(x));
    SquareMonotone(Abs(x), peak);
    assert Square(x) == Square(Abs(x));
  }

  /** The mean square of magnitudes in [low, peak] lies in [low^2, peak^2]. */
  lemma MeanSquareWithin(s: seq<real>, low: real, peak: real)
    requires |s| > 0
    requires 0.0 <= low
    requires forall i :: 0 <= i < |s| ==> low <= Abs(s[i]) <= peak
    ensures Square(low) <= MeanSquare(s) <= Square(peak)
  {
    var n := |s| as real;
    SumSquaresWithin(s, low, peak);
    assert MeanSquare(s) * n == SumSquares(s);
  }

  /**
   * `r` is what `calc_rms` returns: the non-negative square root of the mean
   * square. The C library's `sqrt` is not part of this model; callers receive
   * the root as a value with this property.
   */
  predicate IsRms(a: seq<real>, r: real)
    requires |a| > 0
  {
    0.0 <= r && Square(r) == MeanSquare(a)
  }

  lemma ProductStrict(u: real, v: real, w: real)
    requires 0.0 < u && v < w
    ensures Product(u, v) < Product(u, w)
  {
    assert u * v < u * w;
  }

  lemma SquareStrictMonotone(u: real, p: real)
    requires 0.0 <= u < p
    ensures Square(u) < Square(p)
  {
    ProductMonotone(u, u, p);
    ProductStrict(p, u, p);
    assert Product(u, p) == Product(p, u);
  }

  /** The RMS is zero exactly when every sample is zero. */
  lemma RmsZeroIffSilent(a: seq<real>, r: real)
    requires |a| > 0
    requires IsRms(a, r)
    ensures r == 0.0 <==> forall i :: 0 <= i < |a| ==> a[i] == 0.0
  {
    MeanSquareZero(a);
    SquareFacts(r);
  }

  /** The RMS lies between the smallest and the largest sample magnitude. */
  lemma RmsWithin(a: seq<real>, r: real, low: real, peak: real)
    requires |a| > 0
    requires IsRms(a, r)
    requires 0.0 <= low
    requires forall i :: 0 <= i < |a| ==> low <= Abs(a[i]) <= peak
    ensures low <= r <= peak
  {
    MeanSquareWithin(a, low, peak);
    if r < low {
      SquareStrictMonotone(r, low);
    }
    if peak < r {
      assert 0.0 <= peak by { assert low <= Abs(a[0]) <= peak; }
      SquareStrictMonotone(peak, r);
    }
  }

  // ---------------------------------------------------------------------------
  // Zero crossings

  /** One sample strictly positive and the other strictly negative; a zero never crosses. */
  predicate Crosses(x: real, y: real) {
    (x > 0.0 && y < 0.0) || (x < 0.0 && y > 0.0)
  }

  /** A sign change between a[i-1] and a[i]. */
  predicate CrossesAt(a: seq<real>, i: int) {
    1 <= i < |a| && Crosses(a[i - 1], a[i])
  }

  /** The indices i in [1, n) at which the signal changes sign between a[i-1] and a[i]. */
  function CrossingIndices(a: seq<real>): set<int> {
    set i | 0 <= i < |a| && CrossesAt(a, i)
  }

  /** The crossings among the first `i` samples. */
  function CrossingsBefore(a: seq<real>, i: int): set<int> {
    set k | 0 <= k < i && CrossesAt(a, k)
  }

  /** The set of indices in [lo, hi). */
  function Range(lo: int, hi: int): (r: set<int>)
    ensures forall i :: i in r <==> lo <= i < hi
    ensures |r| == if lo <= hi then hi - lo else 0
    decreases hi - lo
  {
    if lo >= hi then {} else Range(lo, hi - 1) + {hi - 1}
  }

  /** `count_zero_crossings`: counts adjacent strictly opposite-signed pairs. */
  method CountZeroCrossings(a: seq<real>) returns (count: nat)
    ensures count == |CrossingIndices(a)|
    ensures count <= if |a| == 0 then 0 else |a| - 1
  {
    count := 0;
    var i := 1;
    while i < |a|
      invariant 1 <= i <= if |a| == 0 then 1 else |a|
      invariant count == |CrossingsBefore(a, i)|
      invariant count <= i - 1
    {
      ghost var before := CrossingsBefore(a, i);
      ghost var after := CrossingsBefore(a, i + 1);
      if (a[i - 1] > 0.0 && a[i] < 0.0) || (a[i - 1] < 0.0 && a[i] > 0.0) {
        assert after == before + {i};
        count := count + 1;
      } else {
        assert after == before;
      }
      i := i + 1;
    }
    assert CrossingsBefore(a, i) == CrossingIndices(a);
  }

  /** A sample equal to zero contributes no crossing on either side. */
  lemma ZeroSampleNeverCrosses(a: seq<real>, k: int)
    requires 0 <= k < |a| && a[k] == 0.0
    ensures k !in CrossingIndices(a) && k + 1 !in CrossingIndices(a)
  {
  }

  /** When every adjacent pair changes sign, every one of the n-1 pairs is counted. */
  lemma AlternatingCrossesEverywhere(a: seq<real>)
    requires |a| >= 1
    requires forall i :: 1 <= i < |a| ==> Crosses(a[i - 1], a[i])
    ensures |CrossingIndices(a)| == |a| - 1
  {
    assert CrossingIndices(a) == Range(1, |a|);
  }

  // ---------------------------------------------------------------------------
  // Peaks

  /** A peak report: the index and the value printed by `detect_peaks`. */
  datatype Peak = Peak(index: nat, value: real)

  /** A strict local maximum strictly inside the signal (plateaus do not count). */
  predicate IsPeak(a: seq<real>, i: int) {
    1 <= i < |a| - 1 && a[i] > a[i - 1] && a[i] > a[i + 1]
  }

  /**
   * `detect_peaks`: returns the count and, in place of the printed lines, the
   * reports in the order they are printed.
   */
  method DetectPeaks(a: seq<real>) returns (count: nat, peaks: seq<Peak>)
    ensures count == |peaks|
    ensures |a| < 3 ==> count == 0
    ensures forall k :: 0 <= k < |peaks| ==> IsPeak(a, peaks[k].index) && peaks[k].value == a[peaks[k].index]
    ensures forall k, l :: 0 <= k < l < |peaks| ==> peaks[k].index < peaks[l].index
    ensures forall i :: IsPeak(a, i) ==> exists k :: 0 <= k < |peaks| && peaks[k].index == i
  {
    count := 0;
    peaks := [];
    if |a| < 3 {
      return;
    }
    var i := 1;
    while i < |a| - 1
      invariant 1 <= i <= |a| - 1
      invariant count == |peaks|
      invariant forall k :: 0 <= k < |peaks| ==> IsPeak(a, peaks[k].index) && peaks[k].value == a[peaks[k].index]
      invariant forall k :: 0 <= k < |peaks| ==> peaks[k].index < i
      invariant forall k, l :: 0 <= k < l < |peaks| ==> peaks[k].index < peaks[l].index
      invariant forall j :: 1 <= j < i && IsPeak(a, j) ==> exists k :: 0 <= k < |peaks| && peaks[k].index == j
    {
      if a[i] > a[i - 1] && a[i] > a[i + 1] {
        ghost var prev := peaks;
        peaks := peaks + [Peak(i, a[i])];
        assert forall k :: 0 <= k < |prev| ==> peaks[k] == prev[k];
        assert peaks[|peaks| - 1].index == i;
        count := count + 1;
      }
      i := i + 1;
    }
  }

  // ---------------------------------------------------------------------------
  // Moving-average smoothing

  /** First index of the window around i, clipped at 0. */
  function WindowStart(i: int, half: nat): int {
    if i - half < 0 then 0 else i - half
  }

  /** Last index of the window around i, clipped at n - 1. */
  function WindowEnd(n: int, i: int, half: nat): int {
    if i + half >= n then n - 1 else i + half
  }

  /** The mean of the original samples in the clipped window around i. */
  function WindowMean(s: seq<real>, i: int, half: nat): real
    requires 0 <= i < |s|
  {
    Mean(s[WindowStart(i, half)..WindowEnd(|s|, i, half) + 1])
  }

  /** Every sample replaced by its clipped-window mean over the ORIGINAL samples. */
  function Smoothed(s: seq<real>, half: nat): seq<real> {
    seq(|s|, i requires 0 <= i < |s| => WindowMean(s, i, half))
  }

  /** The first loop of `smooth_moving_average`: copies a[0..n) into a fresh scratch array. */
  method Snapshot(a: array<real>, n: int) returns (temp: array<real>)
    requires 0 <= n <= a.Length
    ensures fresh(temp)
    ensures temp[..] == a[..n]
  {
    temp := new real[n];
    var i := 0;
    while i < n
      invariant 0 <= i <= n
      invariant forall k :: 0 <= k < i ==> temp[k] == a[k]
    {
      temp[i] := a[i];
      i := i + 1;
    }
  }

  /** The inner loop of `smooth_moving_average`: the mean of temp[start..end]. */
  method WindowAverage(temp: array<real>, start: int, end: int) returns (avg: real)
    requires 0 <= start <= end < temp.Length
    ensures avg == Mean(temp[..][start..end + 1])
  {
    var sum := 0.0;
    var count := 0;
    var j := start;
    while j <= end
      invariant start <= j <= end + 1
      invariant sum == Sum(temp[start..j])
      invariant count == j - start
    {
      SumExtend(temp[..], start, j);
      assert temp[start..j + 1] == temp[..][start..j + 1];
      sum := sum + temp[j];
      count := count + 1;
      j := j + 1;
    }
    avg := sum / (count as real);
  }

  /**
   * `smooth_moving_average`: snapshot into a scratch array, then rewrite
   * a[0..n) in place from the snapshot.
   */
  method SmoothMovingAverage(a: array<real>, n: int, windowSize: int)
    requires 0 <= n <= a.Length && n <= MaxSamples
    requires windowSize >= 1
    modifies a
    ensures a[..n] == Smoothed(old(a[..n]), windowSize / 2)
    ensures forall k :: n <= k < a.Length ==> a[k] == old(a[k])
  {
    var temp := Snapshot(a, n);
    RewriteFromSnapshot(a, temp, windowSize / 2);
  }

  /** The second loop of `smooth_moving_average`: a[i] := the mean of temp over the window around i. */
  method RewriteFromSnapshot(a: array<real>, temp: array<real>, half: nat)
    requires a != temp && temp.Length <= a.Length
    modifies a
    ensures a[..temp.Length] == Smoothed(temp[..], half)
    ensures forall k :: temp.Length <= k < a.Length ==> a[k] == old(a[k])
  {
    var n := temp.Length;
    ghost var target := Smoothed(temp[..], half);
    var i := 0;
    while i < n
      invariant 0 <= i <= n
      invariant forall k :: 0 <= k < i ==> a[k] == target[k]
      invariant forall k :: i <= k < a.Length ==> a[k] == old(a[k])
      modifies a
    {
      var start := i - half;
      var end := i + half;
      if start < 0 { start := 0; }
      if end >= n { end := n - 1; }
      var avg := WindowAverage(temp, start, end);
      SmoothedAt(temp[..], half, i, start, end);
      a[i] := avg;
      i := i + 1;
    }
    assert a[..n] == target;
  }

  /** The i-th smoothed value is the mean of the clipped window [start, end]. */
  lemma SmoothedAt(s: seq<real>, half: nat, i: int, start: int, end: int)
    requires 0 <= i < |s|
    requires start == WindowStart(i, half) && end == WindowEnd(|s|, i, half)
    ensures 0 <= start <= end < |s|
    ensures Smoothed(s, half)[i] == Mean(s[start..end + 1])
  {
  }

  /** Each smoothed value lies between bounds of its original window. */
  lemma SmoothedWithinWindow(s: seq<real>, half: nat, i: int, lo: real, hi: real)
    requires 0 <= i < |s|
    requires forall j :: WindowStart(i, half) <= j <= WindowEnd(|s|, i, half) ==> lo <= s[j] <= hi
    ensures |Smoothed(s, half)| == |s|
    ensures lo <= Smoothed(s, half)[i] <= hi
  {
    var w := s[WindowStart(i, half)..WindowEnd(|s|, i, half) + 1];
    assert AllWithin(w, lo, hi) by {
      forall k | 0 <= k < |w| ensures lo <= w[k] <= hi {
        assert w[k] == s[WindowStart(i, half) + k];
      }
    }
    MeanWithin(w, lo, hi);
  }

  lemma SingletonMean(w: seq<real>)
    requires |w| == 1
    ensures Mean(w) == w[0]
  {
    assert w[..|w| - 1] == [];
    assert Sum(w) == w[0];
  }

  /** A window of size 1 (half = 0) leaves the samples unchanged. */
  lemma SmoothWidthOneIsIdentity(s: seq<real>)
    ensures Smoothed(s, 1 / 2) == s
  {
    forall i | 0 <= i < |s| ensures Smoothed(s, 0)[i] == s[i] {
      assert WindowStart(i, 0) == i && WindowEnd(|s|, i, 0) == i;
      SingletonMean(s[i..i + 1]);
    }
  }

  /** A constant signal is a fixed point of smoothing, whatever the window. */
  lemma SmoothConstantIsFixed(s: seq<real>, half: nat, c: real)
    requires forall i :: 0 <= i < |s| ==> s[i] == c
    ensures Smoothed(s, half) == s
  {
    forall i | 0 <= i < |s| ensures Smoothed(s, half)[i] == s[i] {
      SmoothedWithinWindow(s, half, i, c, c);
    }
  }

  // ---------------------------------------------------------------------------
  // Sine test signal

  /** The value of 2 * pi written out in `generate_sine_wave`. */
  const TwoPi: real := 6.28318530717958647692

  /** The phase 2 pi * periods * t of sample i, where t = i / n runs from 0 towards 1. */
  function Phase(n: nat, i: nat, periods: int): real
    requires n > 0
  {
    TwoPi * (periods as real) * ((i as real) / (n as real))
  }

  /**
   * Sample i of an n-sample test signal: amplitude * sin(2 pi * periods * i / n).
   * The C library's `sin` is not part of this model and is passed in as `sin`.
   */
  function SineSample(sin: real -> real, n: nat, i: nat, amplitude: real, periods: int): real
    requires n > 0
  {
    amplitude * sin(Phase(n, i, periods))
  }

  /** `generate_sine_wave`: writes the first n samples of the test signal into a. */
  method GenerateSineWave(a: array<real>, n: nat, amplitude: real, periods: int, sin: real -> real)
    requires n <= a.Length
    modifies a
    ensures forall i :: 0 <= i < n ==> a[i] == SineSample(sin, n, i, amplitude, periods)
    ensures forall k :: n <= k < a.Length ==> a[k] == old(a[k])
  {
    var i := 0;
    while i < n
      invariant 0 <= i <= n
      invariant forall k :: 0 <= k < i ==> a[k] == SineSample(sin, n, k, amplitude, periods)
      invariant forall k :: n <= k < a.Length ==> a[k] == old(a[k])
      modifies a
    {
      var t := (i as real) / (n as real);
      var x := TwoPi * (periods as real) * t;
      assert x == Phase(n, i, periods);
      a[i] := amplitude * sin(x);
      i := i + 1;
    }
  }

  /** When sin stays within [-1, 1], every generated sample is bounded by |amplitude|. */
  lemma SineSampleBounded(sin: real -> real, n: nat, i: nat, amplitude: real, periods: int)
    requires n > 0
    requires forall x :: -1.0 <= sin(x) <= 1.0
    ensures Abs(SineSample(sin, n, i, amplitude, periods)) <= Abs(amplitude)
  {
    var s := sin(Phase(n, i, periods));
    assert -1.0 <= s <= 1.0;
    ProductMonotone(Abs(amplitude), Abs(s), 1.0);
    assert Product(Abs(amplitude), Abs(s)) == Abs(amplitude * s);
  }
}
