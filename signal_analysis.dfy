/**
 * The waveform reports built from the analysis helpers: basic information
 * (menu 3), the crest factor (menu 5), the signal classifier (menu 8) and the
 * frequency estimate (menu 18). Each report reads the valid prefix of the
 * sample buffer, passed here as a sequence; the RMS that `calc_rms` returns
 * is passed as a value satisfying `IsRms`, since `sqrt` is not modelled.
 */
module SignalAnalysis {
  import opened RealSeqs
  import opened Waveform
  import opened Wrappers

  // ---------------------------------------------------------------------------
  // Menu 3: basic information

  /** Minimum, maximum and peak-to-peak span of the samples. */
  method BasicInfo(a: seq<real>) returns (min: real, max: real, p2p: real)
    requires |a| >= 1
    ensures min in a && max in a
    ensures forall i :: 0 <= i < |a| ==> min <= a[i] <= max
    ensures p2p == max - min
    ensures 0.0 <= p2p
    ensures p2p == 0.0 <==> forall i :: 0 <= i < |a| ==> a[i] == a[0]
  {
    min := FindMin(a);
    max := FindMax(a);
    p2p := max - min;
    if p2p != 0.0 {
      var j :| 0 <= j < |a| && a[j] == max;
      var k :| 0 <= k < |a| && a[k] == min;
      assert a[j] != a[0] || a[k] != a[0];
    }
  }

  // ---------------------------------------------------------------------------
  // Menu 5: crest factor

  /** The larger of |max| and |min|, the peak value menu 5 reports. */
  function PeakMagnitude(min: real, max: real): real {
    if Abs(max) > Abs(min) then Abs(max) else Abs(min)
  }

  /** With min and max taken from the samples, the peak is the largest sample magnitude. */
  lemma PeakIsLargestMagnitude(a: seq<real>, min: real, max: real)
    requires min in a && max in a
    requires forall i :: 0 <= i < |a| ==> min <= a[i] <= max
    ensures forall i :: 0 <= i < |a| ==> Abs(a[i]) <= PeakMagnitude(min, max)
    ensures exists k :: 0 <= k < |a| && PeakMagnitude(min, max) == Abs(a[k])
  {
    var j :| 0 <= j < |a| && a[j] == max;
    var k :| 0 <= k < |a| && a[k] == min;
    assert PeakMagnitude(min, max) == Abs(a[j]) || PeakMagnitude(min, max) == Abs(a[k]);
  }

  /** peak / rms is at least 1 when 0 < rms <= peak. */
  lemma RatioAtLeastOne(peak: real, rms: real)
    requires 0.0 < rms <= peak
    ensures (peak / rms) * rms == peak
    ensures 1.0 <= peak / rms
  {
    var c := peak / rms;
    if c < 1.0 {
      ProductStrict(rms, c, 1.0);
    }
  }

  /** Dividing a bound on every sample magnitude by the RMS gives at least 1. */
  lemma CrestAtLeastOne(a: seq<real>, rms: real, peak: real)
    requires |a| >= 1
    requires IsRms(a, rms) && rms != 0.0
    requires forall i :: 0 <= i < |a| ==> Abs(a[i]) <= peak
    ensures (peak / rms) * rms == peak
    ensures 1.0 <= peak / rms
  {
    RmsWithin(a, rms, 0.0, peak);
    RatioAtLeastOne(peak, rms);
  }

  /**
   * Menu 5: the peak, the larger of |max| and |min|, and the crest factor
   * peak / rms, undefined (None) when the RMS is zero.
   */
  method CrestFactor(a: seq<real>, rms: real) returns (peak: real, crest: Option<real>)
    requires |a| >= 1
    requires IsRms(a, rms)
    ensures forall i :: 0 <= i < |a| ==> Abs(a[i]) <= peak
    ensures exists k :: 0 <= k < |a| && peak == Abs(a[k])
    ensures crest.None? <==> forall i :: 0 <= i < |a| ==> a[i] == 0.0
    ensures crest.Some? ==> rms != 0.0 && crest.value == peak / rms && 1.0 <= crest.value
  {
    var max := FindMax(a);
    var min := FindMin(a);
    peak := PeakMagnitude(min, max);
    PeakIsLargestMagnitude(a, min, max);
    RmsZeroIffSilent(a, rms);
    if rms == 0.0 {
      crest := None;
    } else {
      CrestAtLeastOne(a, rms, peak);
      crest := Some(peak / rms);
    }
  }

  // ---------------------------------------------------------------------------
  // Menu 8: classification

  /** The four labels the classifier can assign. */
  datatype SignalType = FlatZero | MostlyDC | Oscillating | MixedNoisy

  /**
   * The rule chain of menu 8, first match wins: a zero RMS is flat; a DC level
   * above 0.8 * rms without any zero-crossing is mostly DC; more than
   * sampleCount / 10 (integer division) crossings is oscillating; anything
   * else is mixed.
   */
  function Classify(dc: real, rms: real, zeroCount: nat, sampleCount: nat): (t: SignalType)
    ensures t == FlatZero <==> rms == 0.0
    ensures t == MostlyDC <==> rms != 0.0 && Abs(dc) > 0.8 * rms && zeroCount == 0
    ensures t == Oscillating <==> rms != 0.0 && !(Abs(dc) > 0.8 * rms && zeroCount == 0) && zeroCount > sampleCount / 10
    ensures t == MixedNoisy ==> zeroCount <= sampleCount / 10
    ensures rms != 0.0 && zeroCount > 0 ==> (t == Oscillating <==> zeroCount > sampleCount / 10)
  {
    if rms == 0.0 then FlatZero
    else if Abs(dc) > 0.8 * rms && zeroCount == 0 then MostlyDC
    else if zeroCount > sampleCount / 10 then Oscillating
    else MixedNoisy
  }

  /** Menu 8: computes the DC offset and the zero-crossing count, then classifies. */
  method ClassifySamples(a: seq<real>, rms: real) returns (t: SignalType)
    requires |a| >= 1
    requires IsRms(a, rms)
    ensures t == Classify(Mean(a), rms, |CrossingIndices(a)|, |a|)
    ensures t == FlatZero <==> forall i :: 0 <= i < |a| ==> a[i] == 0.0
  {
    var dc := CalcAverage(a);
    var zeroCount := CountZeroCrossings(a);
    t := Classify(dc, rms, zeroCount, |a|);
    RmsZeroIffSilent(a, rms);
  }

  /** A constant non-zero level is classified as mostly DC. */
  lemma ConstantIsMostlyDC(a: seq<real>, rms: real, c: real)
    requires |a| >= 1
    requires c != 0.0
    requires forall i :: 0 <= i < |a| ==> a[i] == c
    requires IsRms(a, rms)
    ensures Classify(Mean(a), rms, |CrossingIndices(a)|, |a|) == MostlyDC
  {
    assert AllWithin(a, c, c);
    MeanWithin(a, c, c);
    RmsWithin(a, rms, Abs(c), Abs(c));
    assert forall i :: 0 <= i < |a| ==> !CrossesAt(a, i);
    assert CrossingIndices(a) == {};
  }

  /** A signal whose sign flips at every step is classified as oscillating. */
  lemma AlternatingIsOscillating(a: seq<real>, rms: real)
    requires |a| >= 2
    requires forall i :: 1 <= i < |a| ==> Crosses(a[i - 1], a[i])
    requires IsRms(a, rms)
    ensures Classify(Mean(a), rms, |CrossingIndices(a)|, |a|) == Oscillating
  {
    AlternatingCrossesEverywhere(a);
    RmsZeroIffSilent(a, rms);
    assert a[0] != 0.0 by { assert Crosses(a[0], a[1]); }
  }

  // ---------------------------------------------------------------------------
  // Menu 18: frequency estimate

  /** The outcome of the frequency analyser. */
  datatype FrequencyEstimate =
    | NonPositiveRate
    | TooFewCrossings
    | Estimate(cycles: real, totalTime: real, freq: real, period: real)

  /**
   * Two zero-crossings per cycle over (sampleCount - 1) sample intervals at
   * rate fs; rejected when fs <= 0 or when fewer than two crossings or samples
   * are available.
   */
  function EstimateFrequency(fs: real, zeroCount: nat, sampleCount: nat): (e: FrequencyEstimate)
    ensures e == NonPositiveRate <==> fs <= 0.0
    ensures e == TooFewCrossings <==> 0.0 < fs && (zeroCount < 2 || sampleCount < 2)
    ensures e.Estimate? ==> 0.0 < e.freq && e.freq * e.period == 1.0
    ensures e.Estimate? ==> e.freq * e.totalTime == e.cycles && 2.0 * e.cycles == zeroCount as real
    ensures e.Estimate? ==> e.freq == (zeroCount as real) * fs / (2.0 * (sampleCount - 1) as real)
  {
    if fs <= 0.0 then NonPositiveRate
    else if zeroCount < 2 || sampleCount < 2 then TooFewCrossings
    else
      var totalTime := (sampleCount - 1) as real / fs;
      var cycles := zeroCount as real / 2.0;
      var freq := cycles / totalTime;
      Estimate(cycles, totalTime, freq, 1.0 / freq)
  }
}
