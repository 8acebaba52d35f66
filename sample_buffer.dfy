/**
 * The global sample buffer of main.c: a fixed array of MaxSamples doubles,
 * the number of valid samples and the "data ready" flag. Manual entry
 * (menu 1) and sine generation (menu 12) replace the contents; smoothing
 * (menu 9) rewrites the values in place and keeps the count and the flag.
 *
 * A failure to read the count, the window or a generator parameter returns
 * before any state changes; such a call is modelled by not calling the method.
 */
module SampleBuffer {
  import opened RealSeqs
  import opened Waveform
  import opened SignalAnalysis
  import opened Wrappers

  class Buffer {
    var samples: array<real>
    var sampleCount: int
    var dataAvailable: bool

    /**
     * The buffer invariant: the count stays within the array, and the data
     * flag is set exactly when at least one sample is valid.
     */
    ghost predicate Valid()
      reads this
    {
      samples.Length == MaxSamples
      && 0 <= sampleCount <= MaxSamples
      && (dataAvailable <==> 1 <= sampleCount)
    }

    /** The valid samples, samples[0..sampleCount). */
    ghost function Contents(): (c: seq<real>)
      requires Valid()
      reads this, samples
      ensures |c| == sampleCount
      ensures dataAvailable ==> 1 <= |c| <= MaxSamples
    {
      samples[..sampleCount]
    }

    /** Program start: the zero-initialised global array, no samples, no data. */
    constructor ()
      ensures Valid()
      ensures fresh(samples)
      ensures sampleCount == 0 && !dataAvailable
      ensures forall k :: 0 <= k < samples.Length ==> samples[k] == 0.0
    {
      samples := new real[MaxSamples](_ => 0.0);
      sampleCount := 0;
      dataAvailable := false;
    }

    /**
     * Menu 1 after the count n has been read. `readings` are the values the
     * input delivers one by one; when it holds fewer than n values, the read
     * of sample |readings| fails. An out-of-range n clears the buffer; a
     * failed read keeps the samples read so far.
     */
    method EnterSamples(n: int, readings: seq<real>)
      requires Valid()
      modifies this, samples
      ensures Valid()
      ensures samples == old(samples)
      ensures !(1 <= n <= MaxSamples) ==>
        sampleCount == 0 && !dataAvailable && samples[..] == old(samples[..])
      ensures 1 <= n <= MaxSamples ==>
        sampleCount == (if |readings| < n then |readings| else n)
        && samples[..sampleCount] == readings[..sampleCount]
        && forall k :: sampleCount <= k < MaxSamples ==> samples[k] == old(samples[k])
    {
      if n < 1 || n > MaxSamples {
        sampleCount := 0;
        dataAvailable := false;
        return;
      }

      sampleCount := n;

      var i := 0;
      while i < sampleCount
        invariant samples.Length == MaxSamples
        invariant sampleCount == n && 0 <= i <= n
        invariant i <= |readings|
        invariant samples[..i] == readings[..i]
        invariant samples == old(samples)
        invariant forall k :: i <= k < MaxSamples ==> samples[k] == old(samples[k])
        modifies this, samples
      {
        if i == |readings| {
          sampleCount := i;
          dataAvailable := sampleCount > 0;
          return;
        }
        samples[i] := readings[i];
        assert samples[..i + 1] == readings[..i + 1];
        i := i + 1;
      }

      dataAvailable := true;
    }

    /**
     * Menu 12 after its inputs have been read: an out-of-range n changes
     * nothing; otherwise the first n samples become the test signal and the
     * buffer holds exactly those n samples.
     */
    method GenerateSine(n: int, amplitude: real, periods: int, sin: real -> real)
      returns (generated: bool)
      requires Valid()
      modifies this, samples
      ensures Valid()
      ensures samples == old(samples)
      ensures generated <==> 1 <= n <= MaxSamples
      ensures !generated ==>
        sampleCount == old(sampleCount) && dataAvailable == old(dataAvailable)
        && samples[..] == old(samples[..])
      ensures generated ==>
        sampleCount == n && dataAvailable
        && (forall i :: 0 <= i < n ==> samples[i] == SineSample(sin, n, i, amplitude, periods))
        && samples[n..] == old(samples[n..])
    {
      if n < 1 || n > MaxSamples {
        return false;
      }
      GenerateSineWave(samples, n, amplitude, periods, sin);
      sampleCount := n;
      dataAvailable := true;
      generated := true;
    }

    /**
     * Menu 9 after the window size has been read: smooths only when data is
     * available and the window is odd and within [1, sampleCount]; the count
     * and the flag never change.
     */
    method Smooth(window: int) returns (smoothed: bool)
      requires Valid()
      modifies samples
      ensures Valid()
      ensures sampleCount == old(sampleCount) && dataAvailable == old(dataAvailable)
      ensures smoothed <==> dataAvailable && 1 <= window <= sampleCount && window % 2 == 1
      ensures smoothed ==> Contents() == Smoothed(old(Contents()), window / 2)
      ensures !smoothed ==> samples[..] == old(samples[..])
      ensures samples[sampleCount..] == old(samples[sampleCount..])
    {
      if !dataAvailable {
        return false;
      }
      if window < 1 || window > sampleCount || window % 2 == 0 {
        return false;
      }
      SmoothMovingAverage(samples, sampleCount, window);
      smoothed := true;
    }
 
    /**
     * Menu 8 on the buffer: no label without data, otherwise the label of the
     * valid samples. `rms` is what `calc_rms` returns for them.
     */
    method Classification(rms: real) returns (t: Option<SignalType>)
      requires Valid()
      requires dataAvailable ==> IsRms(Contents(), rms)
      ensures t.None? <==> !dataAvailable
      ensures t.Some? ==> t.value == Classify(Mean(Contents()), rms, |CrossingIndices(Contents())|, sampleCount)
      ensures t == Some(FlatZero) <==> dataAvailable && forall i :: 0 <= i < sampleCount ==> samples[i] == 0.0
    {
      if !dataAvailable {
        return None;
      }
      var kind := ClassifySamples(samples[..sampleCount], rms);
      t := Some(kind);
    }

    /**
     * Menu 18 on the buffer: no estimate without data, otherwise the estimate
     * from the zero-crossings of the valid samples at sampling rate fs.
     */
    method FrequencyAnalysis(fs: real) returns (e: Option<FrequencyEstimate>)
      requires Valid()
      ensures e.None? <==> !dataAvailable
      ensures e.Some? ==> e.value == EstimateFrequency(fs, |CrossingIndices(Contents())|, sampleCount)
      ensures e.Some? && e.value.Estimate? ==> 2 <= sampleCount && 0.0 < fs
    {
      if !dataAvailable {
        return None;
      }
      if fs <= 0.0 {
        return Some(NonPositiveRate);
      }
      var zeroCount := CountZeroCrossings(samples[..sampleCount]);
      e := Some(EstimateFrequency(fs, zeroCount, sampleCount));
    }
  }
}
