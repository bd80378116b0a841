/**
 * Average daily battery profiles of the first forecast year: for each hour
 * of the day, the mean over the whole days of the year of the battery
 * charging (shown as a negative figure) and of the battery discharge.
 */
module DailyAverages {
  import opened Series

  const IntervalsPerDay: nat := 24

  /** `Math.floor(length / 24)`: the whole days an array covers. */
  function Days(s: seq<real>): (r: nat)
    ensures 24 * r <= |s| < 24 * r + 24
  {
    |s| / 24
  }

  /** Sum over the first `days` days of the entry at hour h of the day (a missing entry counts as 0). */
  function SlotSum(s: seq<real>, h: nat, days: nat): real
  {
    if days == 0 then 0.0 else SlotSum(s, h, days - 1) + At(s, 24 * (days - 1) + h)
  }

  /** The charging loop's sum: solar and grid charging at hour h, day by day. */
  function ChargeSlotSum(solar: seq<real>, grid: seq<real>, h: nat, days: nat): real
  {
    if days == 0 then 0.0
    else ChargeSlotSum(solar, grid, h, days - 1) + (At(solar, 24 * (days - 1) + h) + At(grid, 24 * (days - 1) + h))
  }

  /** The charging sum is the solar sum plus the grid sum. */
  lemma {:induction false} ChargeSlotSumSplits(solar: seq<real>, grid: seq<real>, h: nat, days: nat)
    ensures ChargeSlotSum(solar, grid, h, days) == SlotSum(solar, h, days) + SlotSum(grid, h, days)
  {
    if days > 0 {
      ChargeSlotSumSplits(solar, grid, h, days - 1);
    }
  }

  /** Only entries of the first `days` whole days take part. */
  lemma {:induction false} SlotSumPrefix(s: seq<real>, h: nat, days: nat, n: nat)
    requires h < 24 && 24 * days <= n <= |s|
    ensures SlotSum(s[..n], h, days) == SlotSum(s, h, days)
  {
    if days > 0 {
      SlotSumPrefix(s, h, days - 1, n);
    }
  }

  lemma {:induction false} SlotSumNonNegative(s: seq<real>, h: nat, days: nat)
    requires forall i :: 0 <= i < |s| ==> s[i] >= 0.0
    ensures SlotSum(s, h, days) >= 0.0
  {
    if days > 0 {
      SlotSumNonNegative(s, h, days - 1);
    }
  }

  /** The charging profile: minus the mean over whole days of solar plus grid charging, hour by hour. */
  function ChargeAverages(solar: seq<real>, grid: seq<real>): (r: seq<real>)
    requires Days(solar) > 0
    ensures |r| == IntervalsPerDay
    ensures forall h :: 0 <= h < 24 ==>
      r[h] * Days(solar) as real == -(SlotSum(solar, h, Days(solar)) + SlotSum(grid, h, Days(solar)))
  {
    var days := Days(solar);
    var r := seq(24, h requires 0 <= h < 24 => -(ChargeSlotSum(solar, grid, h, days) / days as real));
    forall h | 0 <= h < 24
      ensures r[h] * days as real == -(SlotSum(solar, h, days) + SlotSum(grid, h, days))
    {
      ChargeSlotSumSplits(solar, grid, h, days);
    }
    r
  }

  /** The discharging profile: the mean over whole days of the discharge, hour by hour. */
  function DischargeAverages(discharge: seq<real>): (r: seq<real>)
    requires Days(discharge) > 0
    ensures |r| == IntervalsPerDay
    ensures forall h :: 0 <= h < 24 ==> r[h] * Days(discharge) as real == SlotSum(discharge, h, Days(discharge))
  {
    var days := Days(discharge);
    seq(24, h requires 0 <= h < 24 => SlotSum(discharge, h, days) / days as real)
  }

  /** With nonnegative inputs, charging averages are never positive and discharging averages never negative. */
  lemma AverageSigns(solar: seq<real>, grid: seq<real>, discharge: seq<real>, h: nat)
    requires h < 24 && Days(solar) > 0 && Days(discharge) > 0
    requires forall i :: 0 <= i < |solar| ==> solar[i] >= 0.0
    requires forall i :: 0 <= i < |grid| ==> grid[i] >= 0.0
    requires forall i :: 0 <= i < |discharge| ==> discharge[i] >= 0.0
    ensures ChargeAverages(solar, grid)[h] <= 0.0
    ensures DischargeAverages(discharge)[h] >= 0.0
  {
    SlotSumNonNegative(solar, h, Days(solar));
    SlotSumNonNegative(grid, h, Days(solar));
    SlotSumNonNegative(discharge, h, Days(discharge));
  }

  /** A trailing partial day is ignored: the profile is that of the whole days alone. */
  lemma PartialDayIgnored(discharge: seq<real>)
    requires Days(discharge) > 0
    ensures Days(discharge[..24 * Days(discharge)]) == Days(discharge)
    ensures DischargeAverages(discharge[..24 * Days(discharge)]) == DischargeAverages(discharge)
  {
    var days := Days(discharge);
    forall h | 0 <= h < 24 ensures SlotSum(discharge[..24 * days], h, days) == SlotSum(discharge, h, days) {
      SlotSumPrefix(discharge, h, days, 24 * days);
    }
  }

  /**
   * `runDailyAverageBatteryCharge` without its I/O: None (nothing written)
   * when a column is missing or the first year has no whole day.
   */
  method RunDailyAverageBatteryCharge(chargeFromSolar: Option<Years>, chargeFromGrid: Option<Years>)
    returns (out: Option<seq<real>>)
    ensures out.None? <==>
      chargeFromSolar.None? || chargeFromGrid.None? || Days(FirstYear(chargeFromSolar.value)) == 0
    ensures out.Some? ==>
      out.value == ChargeAverages(FirstYear(chargeFromSolar.value), FirstYear(chargeFromGrid.value))
  {
    if chargeFromSolar.None? || chargeFromGrid.None? {
      return None;
    }
    var solar := FirstYear(chargeFromSolar.value);
    var grid := FirstYear(chargeFromGrid.value);
    var days := |solar| / IntervalsPerDay;
    if days == 0 {
      return None;
    }
    var avg := Fill(IntervalsPerDay, 0.0);
    var h := 0;
    while h < IntervalsPerDay
      invariant 0 <= h <= IntervalsPerDay && |avg| == IntervalsPerDay
      invariant forall k :: 0 <= k < h ==> avg[k] == -(ChargeSlotSum(solar, grid, k, days) / days as real)
    {
      var sum := 0.0;
      var d := 0;
      while d < days
        invariant 0 <= d <= days
        invariant sum == ChargeSlotSum(solar, grid, h, d)
      {
        sum := sum + (At(solar, d * IntervalsPerDay + h) + At(grid, d * IntervalsPerDay + h));
        d := d + 1;
      }
      avg := avg[h := -(sum / days as real)];
      h := h + 1;
    }
    return Some(avg);
  }

  /** `runDailyAverageBatteryDischarge` without its I/O. */
  method RunDailyAverageBatteryDischarge(discharge: Option<Years>) returns (out: Option<seq<real>>)
    ensures out.None? <==> discharge.None? || Days(FirstYear(discharge.value)) == 0
    ensures out.Some? ==> out.value == DischargeAverages(FirstYear(discharge.value))
  {
    if discharge.None? {
      return None;
    }
    var values := FirstYear(discharge.value);
    var days := |values| / IntervalsPerDay;
    if days == 0 {
      return None;
    }
    var avg := Fill(IntervalsPerDay, 0.0);
    var h := 0;
    while h < IntervalsPerDay
      invariant 0 <= h <= IntervalsPerDay && |avg| == IntervalsPerDay
      invariant forall k :: 0 <= k < h ==> avg[k] == SlotSum(values, k, days) / days as real
    {
      var sum := 0.0;
      var d := 0;
      while d < days
        invariant 0 <= d <= days
        invariant sum == SlotSum(values, h, d)
      {
        sum := sum + At(values, d * IntervalsPerDay + h);
        d := d + 1;
      }
      avg := avg[h := sum / days as real];
      h := h + 1;
    }
    return Some(avg);
  }
}
