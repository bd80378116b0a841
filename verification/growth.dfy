/**
 * Demand growth curves: thirty yearly cumulative growth rates, year 0 being
 * the baseline. The linear generator yields percents; the exponential one
 * yields fractions, although both feed the same field.
 */
module Growth {
  import opened Series
  import SolarForecast

  const GrowthYears: nat := 30

  /** The curve's value in a year is nondecreasing over the curve. */
  predicate Nondecreasing(s: seq<real>)
  {
    forall i, j :: 0 <= i <= j < |s| ==> s[i] <= s[j]
  }

  /** `calculateLinearGrowth`: year i grows by i times the rate. */
  function LinearGrowth(rate: real): (r: seq<real>)
    ensures |r| == GrowthYears && r[0] == 0.0
  {
    seq(GrowthYears, i requires 0 <= i < GrowthYears => if i == 0 then 0.0 else i as real * rate)
  }

  /** The linear curve steps by exactly the rate each year. */
  lemma LinearGrowthStep(rate: real, i: nat)
    requires 0 < i < GrowthYears
    ensures LinearGrowth(rate)[i] - LinearGrowth(rate)[i - 1] == rate
  {
  }

  /** So a nonnegative rate makes it nondecreasing. */
  lemma {:induction false} LinearGrowthOrdered(rate: real, i: nat, j: nat)
    requires rate >= 0.0 && i <= j < GrowthYears
    ensures LinearGrowth(rate)[i] <= LinearGrowth(rate)[j]
    decreases j
  {
    if i < j {
      LinearGrowthOrdered(rate, i, j - 1);
      LinearGrowthStep(rate, j);
    }
  }

  lemma LinearGrowthNondecreasing(rate: real)
    requires rate >= 0.0
    ensures Nondecreasing(LinearGrowth(rate))
  {
    forall i, j | 0 <= i <= j < GrowthYears ensures LinearGrowth(rate)[i] <= LinearGrowth(rate)[j] {
      LinearGrowthOrdered(rate, i, j);
    }
  }

  /** `calculateExponentialGrowth`: year i is the compound growth `(1 + rate/100)^i - 1`, as a fraction. */
  function ExponentialGrowth(rate: real): (r: seq<real>)
    ensures |r| == GrowthYears && r[0] == 0.0
  {
    seq(GrowthYears, i requires 0 <= i < GrowthYears => if i == 0 then 0.0 else Pow(1.0 + rate / 100.0, i) - 1.0)
  }

  /** With a nonnegative rate the exponential curve is nonnegative and nondecreasing. */
  lemma ExponentialGrowthNondecreasing(rate: real)
    requires rate >= 0.0
    ensures Nondecreasing(ExponentialGrowth(rate))
    ensures forall i :: 0 <= i < GrowthYears ==> ExponentialGrowth(rate)[i] >= 0.0
  {
    var r := ExponentialGrowth(rate);
    var b := 1.0 + rate / 100.0;
    forall i, j | 0 <= i <= j < |r| ensures 0.0 <= r[i] <= r[j] {
      PowMonotone(b, i, j);
      assert Pow(b, 0) == 1.0;
    }
  }

  /**
   * The two generators disagree on units: after one year the linear curve
   * holds the rate as a percent and the exponential curve as a fraction, so
   * the forecast's `1 + rate / 100` reads the exponential curve a hundred
   * times too small.
   */
  lemma GrowthUnitMismatch(rate: real)
    ensures LinearGrowth(rate)[1] == rate
    ensures ExponentialGrowth(rate)[1] * 100.0 == rate
    ensures SolarForecast.GrowthFactor(Some(LinearGrowth(rate)), 1) == 1.0 + rate / 100.0
    ensures SolarForecast.GrowthFactor(Some(ExponentialGrowth(rate)), 1) == 1.0 + rate / 10000.0
  {
    var b := 1.0 + rate / 100.0;
    assert Pow(b, 1) == Pow(b, 0) * b == b;
  }

  const DefaultLinearRate: real := 2.5

  /** `calculateDefaultGrowthData`: the linear curve at 2.5 percent a year. */
  function DefaultGrowthData(): (r: seq<real>)
    ensures r == LinearGrowth(DefaultLinearRate)
  {
    LinearGrowth(2.5)
  }

  /** The default curve is 0, 2.5, 5, ... up to 72.5 and never decreases. */
  lemma DefaultGrowthValues()
    ensures forall i :: 0 <= i < GrowthYears ==> DefaultGrowthData()[i] == 2.5 * i as real
    ensures DefaultGrowthData()[GrowthYears - 1] == 72.5
    ensures Nondecreasing(DefaultGrowthData())
  {
    LinearGrowthNondecreasing(DefaultLinearRate);
  }

  /** `resetToZero`: thirty years of no growth. */
  function ResetToZero(): (r: seq<real>)
    ensures |r| == GrowthYears && forall i :: 0 <= i < GrowthYears ==> r[i] == 0.0
  {
    Fill(GrowthYears, 0.0)
  }

  /** After a reset the forecast grows no hub: every year's multiplier is 1. */
  lemma ResetMeansNoGrowth(year: nat)
    ensures SolarForecast.YearMultiplier(Some(ResetToZero()), year) == 1.0
  {
    PowOne(year);
  }

  lemma {:induction false} PowOne(n: nat)
    ensures Pow(1.0, n) == 1.0
  {
    if n > 0 {
      PowOne(n - 1);
    }
  }

  /** Linear growth at rate 0 is the reset curve. */
  lemma ZeroRateIsReset()
    ensures LinearGrowth(0.0) == ResetToZero()
    ensures ExponentialGrowth(0.0) == ResetToZero()
  {
    var e := ExponentialGrowth(0.0);
    forall i | 0 <= i < GrowthYears ensures e[i] == 0.0 {
      PowOne(i);
    }
  }
}
