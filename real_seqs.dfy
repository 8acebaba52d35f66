/**
 * Arithmetic over sequences of reals shared by the waveform statistics and the
 * resistor calculator. A C `double` is modelled as an exact `real`.
 */
module RealSeqs {

  /** |x|, the C library's `fabs`. */
  function Abs(x: real): real {
    if x < 0.0 then -x else x
  }

  /** The sum of the elements, accumulated left to right as the C loops do. */
  function Sum(s: seq<real>): real {
    if s == [] then 0.0 else Sum(s[..|s| - 1]) + s[|s| - 1]
  }

  /** The arithmetic mean `sum / n` of a non-empty sequence. */
  function Mean(s: seq<real>): real
    requires |s| > 0
  {
    Sum(s) / (|s| as real)
  }

  /** Every element lies in [lo, hi]. */
  predicate AllWithin(s: seq<real>, lo: real, hi: real) {
    forall i :: 0 <= i < |s| ==> lo <= s[i] <= hi
  }

  /** Summing one more element on the right. */
  lemma SumSnoc(s: seq<real>, x: real)
    ensures Sum(s + [x]) == Sum(s) + x
  {
    assert (s + [x])[..|s|] == s;
  }

  /** Extending a slice of `s` by one element on the right. */
  lemma SumExtend(s: seq<real>, lo: int, hi: int)
    requires 0 <= lo <= hi < |s|
    ensures Sum(s[lo..hi + 1]) == Sum(s[lo..hi]) + s[hi]
  {
    assert s[lo..hi + 1][..hi - lo] == s[lo..hi];
  }

  /** n * lo <= Sum(s) <= n * hi when every element lies in [lo, hi]. */
  lemma {:induction false} SumWithin(s: seq<real>, lo: real, hi: real)
    requires AllWithin(s, lo, hi)
    ensures (|s| as real) * lo <= Sum(s) <= (|s| as real) * hi
  {
    if s != [] {
      var p := s[..|s| - 1];
      assert AllWithin(p, lo, hi) by {
        forall i | 0 <= i < |p| ensures lo <= p[i] <= hi {
          assert p[i] == s[i];
        }
      }
      SumWithin(p, lo, hi);
      assert lo <= s[|s| - 1] <= hi;
    }
  }

  /** The mean of elements bounded by [lo, hi] is itself in [lo, hi]. */
  lemma MeanWithin(s: seq<real>, lo: real, hi: real)
    requires |s| > 0
    requires AllWithin(s, lo, hi)
    ensures lo <= Mean(s) <= hi
  {
    var n := |s| as real;
    SumWithin(s, lo, hi);
    assert Mean(s) * n == Sum(s);
  }

  /** A sum of non-negative terms is at least any one of them. */
  lemma {:induction false} SumAtLeastEachTerm(s: seq<real>, k: int)
    requires forall i :: 0 <= i < |s| ==> 0.0 <= s[i]
    requires 0 <= k < |s|
    ensures s[k] <= Sum(s)
    ensures 0.0 <= Sum(s)
  {
    var p := s[..|s| - 1];
    if k < |s| - 1 {
      SumAtLeastEachTerm(p, k);
    } else if |p| > 0 {
      SumAtLeastEachTerm(p, 0);
    }
  }
}
