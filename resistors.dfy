/**
 * The resistor calculator of menu 15: 1 to 20 resistances combined in series
 * (the plain sum) or in parallel (the reciprocal of the sum of reciprocals).
 * A negative resistance only draws a warning and is used as entered.
 */
module Resistors {
  import opened RealSeqs

  /** The largest number of resistors the calculator accepts (the size of `R[]`). */
  const MaxResistors: nat := 20

  /** The messages menu 15 can end with. */
  datatype NetworkResult =
    | InvalidCount
    | Series(total: real)
    | Parallel(total: real)
    | ZeroResistor
    | InvalidParallel
    | InvalidMode

  /** The reciprocals 1 / r[i] of non-zero resistances. */
  function Inverses(r: seq<real>): (q: seq<real>)
    requires 0.0 !in r
    ensures |q| == |r|
  {
    seq(|r|, i requires 0 <= i < |r| => 1.0 / r[i])
  }

  /**
   * Menu 15 after its inputs have been read: `r` holds the resistances as
   * entered and `mode` the configuration choice (1 series, 2 parallel).
   */
  method CombineResistors(r: seq<real>, mode: int) returns (res: NetworkResult)
    ensures !(1 <= |r| <= MaxResistors) ==> res == InvalidCount
    ensures 1 <= |r| <= MaxResistors && mode == 1 ==> res == Series(Sum(r))
    ensures 1 <= |r| <= MaxResistors && mode == 2 && 0.0 in r ==> res == ZeroResistor
    ensures 1 <= |r| <= MaxResistors && mode == 2 && 0.0 !in r ==>
      res == (if Sum(Inverses(r)) != 0.0 then Parallel(1.0 / Sum(Inverses(r))) else InvalidParallel)
    ensures 1 <= |r| <= MaxResistors && mode != 1 && mode != 2 ==> res == InvalidMode
  {
    var n := |r|;
    if n < 1 || n > MaxResistors {
      return InvalidCount;
    }

    if mode == 1 {
      var total := 0.0;
      var i := 0;
      while i < n
        invariant 0 <= i <= n
        invariant total == Sum(r[..i])
      {
        assert r[..i + 1] == r[..i] + [r[i]];
        SumSnoc(r[..i], r[i]);
        total := total + r[i];
        i := i + 1;
      }
      assert r[..n] == r;
      res := Series(total);
    } else if mode == 2 {
      var invSum := 0.0;
      var valid := true;
      var i := 0;
      while i < n
        invariant 0 <= i <= n
        invariant valid ==> 0.0 !in r[..i] && invSum == Sum(Inverses(r[..i]))
        invariant !valid ==> 0.0 in r
      {
        if r[i] == 0.0 {
          valid := false;
          break;
        }
        assert Inverses(r[..i + 1]) == Inverses(r[..i]) + [1.0 / r[i]];
        SumSnoc(Inverses(r[..i]), 1.0 / r[i]);
        invSum := invSum + 1.0 / r[i];
        i := i + 1;
      }
      if valid {
        assert r[..n] == r;
      }
      if valid && invSum != 0.0 {
        res := Parallel(1.0 / invSum);
      } else if valid {
        res := InvalidParallel;
      } else {
        res := ZeroResistor;
      }
    } else {
      res := InvalidMode;
    }
  }

  /** Positive resistances in parallel combine to at most the smallest of them. */
  lemma ParallelAtMostEachBranch(r: seq<real>, k: int)
    requires forall i :: 0 <= i < |r| ==> r[i] > 0.0
    requires 0 <= k < |r|
    ensures 0.0 !in r
    ensures 0.0 < Sum(Inverses(r))
    ensures 0.0 < 1.0 / Sum(Inverses(r)) <= r[k]
  {
    var q := Inverses(r);
    assert forall i :: 0 <= i < |q| ==> 0.0 < q[i];
    SumAtLeastEachTerm(q, k);
    ReciprocalAntitone(q[k], Sum(q));
  }

  /** 1 / s <= r whenever s >= 1 / r > 0. */
  lemma ReciprocalAntitone(x: real, s: real)
    requires 0.0 < x <= s
    ensures 0.0 < 1.0 / s <= 1.0 / x
  {
  }

  /** Series resistances that are non-negative combine to at least each of them. */
  lemma SeriesAtLeastEachBranch(r: seq<real>, k: int)
    requires forall i :: 0 <= i < |r| ==> r[i] >= 0.0
    requires 0 <= k < |r|
    ensures r[k] <= Sum(r)
  {
    SumAtLeastEachTerm(r, k);
  }

  /** n equal resistances R in parallel give R / n. */
  lemma EqualParallel(r: seq<real>, R: real)
    requires |r| >= 1
    requires R != 0.0
    requires forall i :: 0 <= i < |r| ==> r[i] == R
    ensures 0.0 !in r
    ensures Sum(Inverses(r)) == (|r| as real) / R
    ensures 1.0 / Sum(Inverses(r)) == R / (|r| as real)
  {
    var q := Inverses(r);
    assert AllWithin(q, 1.0 / R, 1.0 / R);
    SumWithin(q, 1.0 / R, 1.0 / R);
  }
}
