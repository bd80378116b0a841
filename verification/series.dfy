/**
 * Shared vocabulary of the energy model: optional values and results, sums,
 * minimum/maximum, integer powers, JavaScript-style clamped slices, the
 * non-leap calendar used by every stage, and the two loop shapes that the
 * forecasting stages share (a per-year, per-interval combination of two
 * year-indexed arrays, and a per-year, per-interval map of one).
 */
module Series {

  datatype Option<+T> = None | Some(value: T)

  datatype Result<+T, +E> = Success(value: T) | Failure(error: E)

  /** A year-indexed array of interval (hourly) values. */
  type Years = seq<seq<real>>

  /** `column[0] || []`: the first year of a forecast column, or no intervals when it has none. */
  function FirstYear(column: Years): (r: seq<real>)
    ensures |column| == 0 ==> r == []
    ensures |column| > 0 ==> r == column[0]
  {
    if |column| > 0 then column[0] else []
  }

  function Min(a: real, b: real): (r: real)
    ensures r <= a && r <= b && (r == a || r == b)
  {
    if a <= b then a else b
  }

  function Max(a: real, b: real): (r: real)
    ensures r >= a && r >= b && (r == a || r == b)
  {
    if a >= b then a else b
  }

  /**
   * `Math.min` on lengths and counts. It is kept apart from the real-valued
   * `Min` because Dafny has no ordered generic type to define both once.
   */
  function MinNat(a: nat, b: nat): (r: nat)
    ensures r <= a && r <= b && (r == a || r == b)
  {
    if a <= b then a else b
  }

  /** `Array.prototype.reduce((s, v) => s + v, 0)`: a left fold from 0. */
  function Sum(s: seq<real>): real
  {
    if |s| == 0 then 0.0 else Sum(s[..|s| - 1]) + s[|s| - 1]
  }

  /** `Math.pow(b, n)` for a natural exponent. */
  function Pow(b: real, n: nat): real
  {
    if n == 0 then 1.0 else Pow(b, n - 1) * b
  }

  /** n copies of v (`Array(n).fill(v)`). */
  function Fill(n: nat, v: real): (r: seq<real>)
    ensures |r| == n && forall i :: 0 <= i < n ==> r[i] == v
  {
    seq(n, _ => v)
  }

  /** Every entry of s times c. */
  function Scaled(s: seq<real>, c: real): (r: seq<real>)
    ensures |r| == |s| && forall i :: 0 <= i < |s| ==> r[i] == s[i] * c
  {
    seq(|s|, i requires 0 <= i < |s| => s[i] * c)
  }

  /** Scaling twice is scaling once by the product. */
  lemma ScaledTwice(s: seq<real>, a: real, b: real)
    ensures Scaled(Scaled(s, a), b) == Scaled(s, a * b)
  {
    forall i | 0 <= i < |s| ensures Scaled(Scaled(s, a), b)[i] == Scaled(s, a * b)[i] {
      assert (s[i] * a) * b == s[i] * (a * b);
    }
  }

  /** `s.slice(lo, hi)`: both bounds are clamped to the length. */
  function Slice(s: seq<real>, lo: nat, hi: nat): (r: seq<real>)
    ensures |r| == if lo >= hi || lo >= |s| then 0 else MinNat(hi, |s|) - lo
    ensures forall k :: 0 <= k < |r| ==> r[k] == s[lo + k]
  {
    var h := MinNat(hi, |s|);
    if lo >= h then [] else s[lo..h]
  }

  /** `x || 0` for a numeric column that may be null. */
  function OrZero(x: Option<real>): real
  {
    match x
    case None => 0.0
    case Some(v) => v
  }

  /** `s[i] ?? 0`: a missing entry reads as 0. */
  function At(s: seq<real>, i: nat): real
  {
    if i < |s| then s[i] else 0.0
  }

  // ---------------------------------------------------------------------
  // Calendar: the non-leap month table every stage uses.

  const MonthDays: seq<nat> := [31, 28, 31, 30, 31, 30, 31, 31, 30, 31, 30, 31]

  const HoursPerYear: nat := 8760
  const DaysPerYear: nat := 365

  /** Number of days before month m (m = 12 gives the whole year). */
  function DayOffset(m: nat): nat
    requires m <= 12
  {
    if m == 0 then 0 else DayOffset(m - 1) + MonthDays[m - 1]
  }

  /** The twelve months make up the 365 days and 8760 hours of the year. */
  lemma YearLength()
    ensures DayOffset(12) == DaysPerYear && 24 * DayOffset(12) == HoursPerYear
  {
    assert DayOffset(1) == 31;
    assert DayOffset(2) == 59;
    assert DayOffset(3) == 90;
    assert DayOffset(4) == 120;
    assert DayOffset(5) == 151;
    assert DayOffset(6) == 181;
    assert DayOffset(7) == 212;
    assert DayOffset(8) == 243;
    assert DayOffset(9) == 273;
    assert DayOffset(10) == 304;
    assert DayOffset(11) == 334;
  }

  // ---------------------------------------------------------------------
  // Sums

  lemma {:induction false} SumAppend(a: seq<real>, b: seq<real>)
    ensures Sum(a + b) == Sum(a) + Sum(b)
    decreases |b|
  {
    if |b| == 0 {
      assert a + b == a;
    } else {
      var b' := b[..|b| - 1];
      assert (a + b)[..|a + b| - 1] == a + b';
      SumAppend(a, b');
    }
  }

  lemma SumSplit(s: seq<real>, k: nat)
    requires k <= |s|
    ensures Sum(s) == Sum(s[..k]) + Sum(s[k..])
  {
    assert s == s[..k] + s[k..];
    SumAppend(s[..k], s[k..]);
  }

  lemma {:induction false} SumFill(n: nat, v: real)
    ensures Sum(Fill(n, v)) == n as real * v
  {
    if n > 0 {
      assert Fill(n, v)[..n - 1] == Fill(n - 1, v);
      SumFill(n - 1, v);
    }
  }

  lemma {:induction false} SumScaled(s: seq<real>, r: seq<real>, c: real)
    requires |r| == |s| && forall i :: 0 <= i < |s| ==> r[i] == s[i] * c
    ensures Sum(r) == Sum(s) * c
    decreases |s|
  {
    if |s| > 0 {
      SumScaled(s[..|s| - 1], r[..|r| - 1], c);
    }
  }

  lemma {:induction false} SumNonNegative(s: seq<real>)
    requires forall i :: 0 <= i < |s| ==> s[i] >= 0.0
    ensures Sum(s) >= 0.0
    decreases |s|
  {
    if |s| > 0 {
      SumNonNegative(s[..|s| - 1]);
    }
  }

  /** Sums respect pointwise order. */
  lemma {:induction false} SumMonotone(s: seq<real>, t: seq<real>)
    requires |s| == |t| && forall i :: 0 <= i < |s| ==> s[i] <= t[i]
    ensures Sum(s) <= Sum(t)
    decreases |s|
  {
    if |s| > 0 {
      SumMonotone(s[..|s| - 1], t[..|t| - 1]);
    }
  }

  lemma {:induction false} SumZeros(s: seq<real>)
    requires forall i :: 0 <= i < |s| ==> s[i] == 0.0
    ensures Sum(s) == 0.0
    decreases |s|
  {
    if |s| > 0 {
      SumZeros(s[..|s| - 1]);
    }
  }

  // ---------------------------------------------------------------------
  // Block totals: sums of consecutive slices (days of hours, months of days
  // or of hours).

  /** `s.slice(lo, hi).reduce((sum, v) => sum + v, 0)`. */
  function BlockTotal(s: seq<real>, lo: nat, hi: nat): real
  {
    Sum(Slice(s, lo, hi))
  }

  /** The sum of a clamped prefix grows by the clamped slice between two bounds. */
  lemma PrefixSlice(s: seq<real>, lo: nat, hi: nat)
    requires lo <= hi
    ensures Sum(s[..MinNat(hi, |s|)]) == Sum(s[..MinNat(lo, |s|)]) + BlockTotal(s, lo, hi)
  {
    var a, b := MinNat(lo, |s|), MinNat(hi, |s|);
    assert s[..b][..a] == s[..a];
    SumSplit(s[..b], a);
    assert s[..b][a..] == Slice(s, lo, hi);
  }

  /** Cut points that never decrease. */
  ghost predicate Ascending(cuts: seq<nat>)
  {
    forall i, j :: 0 <= i <= j < |cuts| ==> cuts[i] <= cuts[j]
  }

  /** Totals of the consecutive blocks [cuts[k], cuts[k + 1]) of s. */
  function CutTotals(s: seq<real>, cuts: seq<nat>): (r: seq<real>)
    ensures |r| == if |cuts| == 0 then 0 else |cuts| - 1
    ensures forall k :: 0 <= k < |r| ==> r[k] == BlockTotal(s, cuts[k], cuts[k + 1])
  {
    if |cuts| == 0 then []
    else seq(|cuts| - 1, k requires 0 <= k < |cuts| - 1 => BlockTotal(s, cuts[k], cuts[k + 1]))
  }

  /** With cuts starting at 0, the first k block totals add up to the entries before cuts[k]. */
  lemma {:induction false} CutTotalsPrefix(s: seq<real>, cuts: seq<nat>, k: nat)
    requires Ascending(cuts) && |cuts| > 0 && cuts[0] == 0 && k < |cuts|
    ensures Sum(CutTotals(s, cuts)[..k]) == Sum(s[..MinNat(cuts[k], |s|)])
  {
    if k == 0 {
      assert s[..0] == [];
    } else {
      CutTotalsPrefix(s, cuts, k - 1);
      var t := CutTotals(s, cuts)[..k];
      assert t[..k - 1] == CutTotals(s, cuts)[..k - 1];
      PrefixSlice(s, cuts[k - 1], cuts[k]);
    }
  }

  /** Day boundaries of an hourly series: day d spans hours [24 * d, 24 * d + 24). */
  function DayCuts(days: nat): (r: seq<nat>)
    ensures |r| == days + 1 && forall d :: 0 <= d <= days ==> r[d] == 24 * d
  {
    seq(days + 1, d requires 0 <= d <= days => 24 * d)
  }

  /** Total of day d of an hourly series: `sum(s.slice(d * 24, d * 24 + 24))`. */
  function DayTotal(s: seq<real>, d: nat): real
  {
    BlockTotal(s, 24 * d, 24 * d + 24)
  }

  /** The totals of the first `days` days of an hourly series. */
  function DayTotals(s: seq<real>, days: nat): (r: seq<real>)
    ensures |r| == days && forall d :: 0 <= d < days ==> r[d] == DayTotal(s, d)
  {
    seq(days, d requires 0 <= d < days => DayTotal(s, d))
  }

  /** The first k day totals add up to the first 24 * k hours. */
  lemma DayTotalsPrefix(s: seq<real>, days: nat, k: nat)
    requires k <= days
    ensures Sum(DayTotals(s, days)[..k]) == Sum(s[..MinNat(24 * k, |s|)])
  {
    var cuts := DayCuts(days);
    assert Ascending(cuts);
    assert DayTotals(s, days) == CutTotals(s, cuts);
    CutTotalsPrefix(s, cuts, k);
  }

  /** Month boundaries of a series with `unit` entries per day. */
  function MonthCuts(unit: nat): (r: seq<nat>)
    ensures |r| == 13 && forall m :: 0 <= m <= 12 ==> r[m] == unit * DayOffset(m)
  {
    seq(13, m requires 0 <= m <= 12 => unit * DayOffset(m))
  }

  lemma {:induction false} DayOffsetAscending(i: nat, j: nat)
    requires i <= j <= 12
    ensures DayOffset(i) <= DayOffset(j)
    decreases j
  {
    if i < j {
      DayOffsetAscending(i, j - 1);
    }
  }

  lemma MulMonotone(c: nat, a: nat, b: nat)
    requires a <= b
    ensures c * a <= c * b
  {
  }

  lemma MonthCutsAscending(unit: nat)
    ensures Ascending(MonthCuts(unit)) && MonthCuts(unit)[0] == 0
  {
    var r := MonthCuts(unit);
    forall i, j | 0 <= i <= j < 13 ensures r[i] <= r[j] {
      DayOffsetAscending(i, j);
      MulMonotone(unit, DayOffset(i), DayOffset(j));
    }
  }

  /**
   * Total of month m of a series with `unit` entries per day (24 for hourly
   * series, 1 for daily ones): entries [unit * DayOffset(m), unit * DayOffset(m + 1)).
   */
  function MonthTotal(s: seq<real>, unit: nat, m: nat): real
    requires m < 12
  {
    BlockTotal(s, unit * DayOffset(m), unit * DayOffset(m + 1))
  }

  /** The twelve month totals of a series with `unit` entries per day. */
  function MonthTotals(s: seq<real>, unit: nat): (r: seq<real>)
    ensures |r| == 12 && forall m :: 0 <= m < 12 ==> r[m] == MonthTotal(s, unit, m)
  {
    seq(12, m requires 0 <= m < 12 => MonthTotal(s, unit, m))
  }

  /** The first m month totals add up to the entries before month m. */
  lemma MonthTotalsPrefix(s: seq<real>, unit: nat, m: nat)
    requires m <= 12
    ensures Sum(MonthTotals(s, unit)[..m]) == Sum(s[..MinNat(unit * DayOffset(m), |s|)])
  {
    var cuts := MonthCuts(unit);
    MonthCutsAscending(unit);
    assert MonthTotals(s, unit) == CutTotals(s, cuts);
    CutTotalsPrefix(s, cuts, m);
  }

  /** The month totals account for exactly the first year of the series. */
  lemma MonthTotalsSum(s: seq<real>, unit: nat)
    ensures Sum(MonthTotals(s, unit)) == Sum(s[..MinNat(unit * DayOffset(12), |s|)])
  {
    var t := MonthTotals(s, unit);
    MonthTotalsPrefix(s, unit, 12);
    assert t[..12] == t;
  }

  // ---------------------------------------------------------------------
  // Powers

  lemma {:induction false} PowPositive(b: real, n: nat)
    requires b > 0.0
    ensures Pow(b, n) > 0.0
  {
    if n > 0 {
      PowPositive(b, n - 1);
    }
  }

  /** For a base of at least 1, powers grow with the exponent. */
  lemma {:induction false} PowMonotone(b: real, m: nat, n: nat)
    requires b >= 1.0 && m <= n
    ensures 1.0 <= Pow(b, m) <= Pow(b, n)
    decreases n
  {
    if n > m {
      PowMonotone(b, m, n - 1);
      assert Pow(b, n) == Pow(b, n - 1) * b;
    } else if m > 0 {
      PowMonotone(b, 0, m - 1);
      assert Pow(b, m) == Pow(b, m - 1) * b;
    }
  }

  // ---------------------------------------------------------------------
  // The two loop shapes of the forecasting stages.

  /**
   * Combine two year-indexed arrays interval by interval: the number of
   * years and of intervals is that of the shorter input.
   */
  function Pairwise(a: Years, b: Years, op: (real, real) -> real): (r: Years)
    ensures |r| == MinNat(|a|, |b|)
    ensures forall y :: 0 <= y < |r| ==>
      |r[y]| == MinNat(|a[y]|, |b[y]|) &&
      forall i :: 0 <= i < |r[y]| ==> r[y][i] == op(a[y][i], b[y][i])
  {
    seq(MinNat(|a|, |b|), y requires 0 <= y < MinNat(|a|, |b|) =>
      seq(MinNat(|a[y]|, |b[y]|), i requires 0 <= i < MinNat(|a[y]|, |b[y]|) => op(a[y][i], b[y][i])))
  }

  /** Apply op to every interval of every year; the shape is kept. */
  function MapYears(a: Years, op: real -> real): (r: Years)
    ensures |r| == |a|
    ensures forall y :: 0 <= y < |r| ==>
      |r[y]| == |a[y]| && forall i :: 0 <= i < |r[y]| ==> r[y][i] == op(a[y][i])
  {
    seq(|a|, y requires 0 <= y < |a| => seq(|a[y]|, i requires 0 <= i < |a[y]| => op(a[y][i])))
  }

  /** The nested year/interval loop that pushes op(a, b) into per-year arrays. */
  method CombineYears(a: Years, b: Years, op: (real, real) -> real) returns (r: Years)
    ensures r == Pairwise(a, b, op)
  {
    var years := MinNat(|a|, |b|);
    r := [];
    var year := 0;
    while year < years
      invariant 0 <= year <= years
      invariant |r| == year
      invariant forall y :: 0 <= y < year ==> r[y] == Pairwise(a, b, op)[y]
    {
      var intervals := MinNat(|a[year]|, |b[year]|);
      var row: seq<real> := [];
      var i := 0;
      while i < intervals
        invariant 0 <= i <= intervals
        invariant |row| == i
        invariant forall k :: 0 <= k < i ==> row[k] == op(a[year][k], b[year][k])
      {
        row := row + [op(a[year][i], b[year][i])];
        i := i + 1;
      }
      r := r + [row];
      year := year + 1;
    }
  }

  /** The nested year/interval loop that pushes op(a) into per-year arrays. */
  method MapEachYear(a: Years, op: real -> real) returns (r: Years)
    ensures r == MapYears(a, op)
  {
    r := [];
    var year := 0;
    while year < |a|
      invariant 0 <= year <= |a|
      invariant |r| == year
      invariant forall y :: 0 <= y < year ==> r[y] == MapYears(a, op)[y]
    {
      var row: seq<real> := [];
      var i := 0;
      while i < |a[year]|
        invariant 0 <= i <= |a[year]|
        invariant |row| == i
        invariant forall k :: 0 <= k < i ==> row[k] == op(a[year][k])
      {
        row := row + [op(a[year][i])];
        i := i + 1;
      }
      r := r + [row];
      year := year + 1;
    }
  }
}
