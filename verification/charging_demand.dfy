/**
 * Charging demand: a hub's hourly demand for one non-leap year is built from
 * its charging profile's weekday and weekend hour-of-day weights, scaled
 * month by month so that each month's hours add up to that month's
 * configured energy; the profile is then summarised into daily and monthly
 * totals. A hub's charging capacity is its charger power times its number of
 * chargers, available every hour.
 */
module ChargingDemand {
  import opened Series

  const HoursPerWeek: nat := 168

  /** `isWeekend`: days 5 and 6 of every 7-day week counted from hour 0. */
  function IsWeekend(hour: nat): bool
  {
    var dayOfWeek := (hour / 24) % 7;
    dayOfWeek == 5 || dayOfWeek == 6
  }

  /** The weekend is the last 48 hours of every 168-hour week. */
  lemma WeekendByWeekHour(hour: nat)
    ensures IsWeekend(hour) <==> hour % HoursPerWeek >= 120
  {
    var day, hourOfDay := hour / 24, hour % 24;
    var week, dayOfWeek := day / 7, day % 7;
    assert hour == 24 * day + hourOfDay;
    assert day == 7 * week + dayOfWeek;
    var weekHour := 24 * dayOfWeek + hourOfDay;
    assert hour == HoursPerWeek * week + weekHour && 0 <= weekHour < HoursPerWeek;
    assert hour % HoursPerWeek == weekHour;
  }

  /** The behaviour arrays of a charging profile, already parsed. */
  datatype BehaviourArrays = BehaviourArrays(weekday: seq<real>, weekend: seq<real>, monthly: seq<real>)

  /** Full hour-of-day weights for both day types and a value for every month. */
  predicate WellShaped(b: BehaviourArrays)
  {
    |b.weekday| >= 24 && |b.weekend| >= 24 && |b.monthly| >= 12
  }

  /** The unscaled weight of an absolute hour of the year. */
  function BaseValue(b: BehaviourArrays, hour: nat): real
    requires WellShaped(b)
  {
    if IsWeekend(hour) then b.weekend[hour % 24] else b.weekday[hour % 24]
  }

  /** `baseProfile` of month m: the weights of its hours, in order. */
  function MonthBase(b: BehaviourArrays, m: nat): (r: seq<real>)
    requires WellShaped(b) && m < 12
    ensures |r| == 24 * MonthDays[m]
    ensures forall h :: 0 <= h < |r| ==> r[h] == BaseValue(b, 24 * DayOffset(m) + h)
  {
    seq(24 * MonthDays[m], h requires 0 <= h < 24 * MonthDays[m] => BaseValue(b, 24 * DayOffset(m) + h))
  }

  /** `baseSum || 1`: an all-zero month divides by 1 instead of 0. */
  function Divisor(base: seq<real>): (r: real)
    ensures r != 0.0
    ensures Sum(base) != 0.0 ==> r == Sum(base)
  {
    var t := Sum(base);
    if t == 0.0 then 1.0 else t
  }

  /** `scaling`: the month's energy per unit of weight. */
  function MonthScaling(b: BehaviourArrays, m: nat): real
    requires WellShaped(b) && m < 12
  {
    b.monthly[m] / Divisor(MonthBase(b, m))
  }

  /** The demand of month m's hours: each weight times the month's scaling. */
  function MonthDemand(b: BehaviourArrays, m: nat): (r: seq<real>)
    requires WellShaped(b) && m < 12
    ensures |r| == 24 * MonthDays[m]
  {
    Scaled(MonthBase(b, m), MonthScaling(b, m))
  }

  /** The demand of the first m months, concatenated. */
  function Synthesized(b: BehaviourArrays, m: nat): (r: seq<real>)
    requires WellShaped(b) && m <= 12
    ensures |r| == 24 * DayOffset(m)
  {
    if m == 0 then [] else Synthesized(b, m - 1) + MonthDemand(b, m - 1)
  }

  /**
   * What month m's hours add up to: the configured monthly energy, or 0 when
   * every weight of the month is 0 (the divisor falls back to 1).
   */
  function MonthTarget(b: BehaviourArrays, m: nat): real
    requires WellShaped(b) && m < 12
  {
    if Sum(MonthBase(b, m)) == 0.0 then 0.0 else b.monthly[m]
  }

  function Targets(b: BehaviourArrays): (r: seq<real>)
    requires WellShaped(b)
    ensures |r| == 12 && forall m :: 0 <= m < 12 ==> r[m] == MonthTarget(b, m)
  {
    seq(12, m requires 0 <= m < 12 => MonthTarget(b, m))
  }

  /** Scaling makes each month's hours add up to its target. */
  lemma MonthDemandSum(b: BehaviourArrays, m: nat)
    requires WellShaped(b) && m < 12
    ensures Sum(MonthDemand(b, m)) == MonthTarget(b, m)
  {
    var base := MonthBase(b, m);
    var c := MonthScaling(b, m);
    SumScaled(base, Scaled(base, c), c);
    if Sum(base) == 0.0 {
      assert Sum(base) * c == 0.0;
    } else {
      assert Sum(base) * (b.monthly[m] / Sum(base)) == b.monthly[m];
    }
  }

  /** The first m months of the synthesized profile add up to the first m targets. */
  lemma {:induction false} SynthesizedSum(b: BehaviourArrays, m: nat)
    requires WellShaped(b) && m <= 12
    ensures Sum(Synthesized(b, m)) == Sum(Targets(b)[..m])
  {
    if m > 0 {
      SynthesizedSum(b, m - 1);
      SumAppend(Synthesized(b, m - 1), MonthDemand(b, m - 1));
      MonthDemandSum(b, m - 1);
      assert Targets(b)[..m][..m - 1] == Targets(b)[..m - 1];
    }
  }

  /** Later months only append: the first m months are a prefix of the first n. */
  lemma {:induction false} SynthesizedPrefix(b: BehaviourArrays, m: nat, n: nat)
    requires WellShaped(b) && m <= n <= 12
    ensures Synthesized(b, m) <= Synthesized(b, n)
    decreases n
  {
    if m < n {
      SynthesizedPrefix(b, m, n - 1);
    }
  }

  /** Month m's hours of the year's profile are exactly the month's demand. */
  lemma MonthSlice(b: BehaviourArrays, m: nat)
    requires WellShaped(b) && m < 12
    ensures Slice(Synthesized(b, 12), 24 * DayOffset(m), 24 * DayOffset(m + 1)) == MonthDemand(b, m)
  {
    var year := Synthesized(b, 12);
    SynthesizedPrefix(b, m + 1, 12);
    var upTo := Synthesized(b, m + 1);
    assert upTo == Synthesized(b, m) + MonthDemand(b, m);
    assert year[..|upTo|] == upTo;
    assert Slice(year, 24 * DayOffset(m), 24 * DayOffset(m + 1)) == upTo[24 * DayOffset(m)..];
  }

  /** Each calendar month of the synthesized year adds up to its target. */
  lemma SynthesizedMonthTotals(b: BehaviourArrays)
    requires WellShaped(b)
    ensures MonthTotals(Synthesized(b, 12), 24) == Targets(b)
  {
    forall m | 0 <= m < 12 ensures MonthTotals(Synthesized(b, 12), 24)[m] == Targets(b)[m] {
      MonthSlice(b, m);
      MonthDemandSum(b, m);
    }
  }

  /** The first inner loop: the weights of month m's hours, from its first hour on. */
  method BuildBaseProfile(b: BehaviourArrays, month: nat, hourIdx: nat) returns (baseProfile: seq<real>)
    requires WellShaped(b) && month < 12 && hourIdx == 24 * DayOffset(month)
    ensures baseProfile == MonthBase(b, month)
  {
    ghost var monthBase := MonthBase(b, month);
    var hoursInMonth := MonthDays[month] * 24;
    baseProfile := [];
    var h := 0;
    while h < hoursInMonth
      invariant 0 <= h <= hoursInMonth
      invariant baseProfile == monthBase[..h]
    {
      var absHour := hourIdx + h;
      var hourOfDay := absHour % 24;
      var base := if IsWeekend(absHour) then b.weekend[hourOfDay] else b.weekday[hourOfDay];
      baseProfile := baseProfile + [base];
      h := h + 1;
    }
  }

  /** The second inner loop: push each weight times the scaling. */
  method PushScaled(profile: seq<real>, baseProfile: seq<real>, scaling: real) returns (r: seq<real>)
    ensures r == profile + Scaled(baseProfile, scaling)
  {
    ghost var scaled := Scaled(baseProfile, scaling);
    r := profile;
    var h := 0;
    while h < |baseProfile|
      invariant 0 <= h <= |baseProfile|
      invariant r == profile + scaled[..h]
    {
      assert scaled[h] == baseProfile[h] * scaling;
      assert scaled[..h + 1] == scaled[..h] + [scaled[h]];
      r := r + [baseProfile[h] * scaling];
      h := h + 1;
    }
    assert scaled[..|baseProfile|] == scaled;
  }

  /**
   * The loop of `runChargingDemandAnalysis` for a hub whose behaviour arrays
   * were read: month by month, build the base profile of the month's hours,
   * divide the month's energy by its sum (or by 1 when that is 0) and push
   * each weight times that scaling.
   */
  method SynthesizeDemand(b: BehaviourArrays) returns (profile: seq<real>)
    requires WellShaped(b)
    ensures profile == Synthesized(b, 12)
  {
    profile := [];
    var hourIdx := 0;
    var month := 0;
    while month < 12
      invariant 0 <= month <= 12
      invariant hourIdx == 24 * DayOffset(month)
      invariant profile == Synthesized(b, month)
    {
      var hoursInMonth := MonthDays[month] * 24;
      var baseProfile := BuildBaseProfile(b, month, hourIdx);
      var baseSum := Sum(baseProfile);
      if baseSum == 0.0 {
        baseSum := 1.0;
      }
      var scaling := b.monthly[month] / baseSum;
      assert scaling == MonthScaling(b, month);
      profile := PushScaled(profile, baseProfile, scaling);
      hourIdx := hourIdx + hoursInMonth;
      month := month + 1;
    }
  }

  /** Where a hub's behaviour arrays come from, and the ways that can fail. */
  datatype BehaviourLookup =
    | NoProfileLinked
    | NoBehaviourRow
    | UnreadableArrays
    | Arrays(arrays: BehaviourArrays)

  predicate LookupWellShaped(lookup: BehaviourLookup)
  {
    lookup.Arrays? ==> WellShaped(lookup.arrays)
  }

  /** A hub's demand profile: synthesized from its arrays, or a year of zeros. */
  function HubDemand(lookup: BehaviourLookup): (r: seq<real>)
    requires LookupWellShaped(lookup)
    ensures |r| == HoursPerYear
  {
    YearLength();
    if lookup.Arrays? then Synthesized(lookup.arrays, 12) else Fill(HoursPerYear, 0.0)
  }

  /** A hub's annual demand is the sum of its monthly targets (0 without arrays). */
  lemma HubAnnualDemand(lookup: BehaviourLookup)
    requires LookupWellShaped(lookup)
    ensures Sum(HubDemand(lookup)) == if lookup.Arrays? then Sum(Targets(lookup.arrays)) else 0.0
  {
    if lookup.Arrays? {
      SynthesizedSum(lookup.arrays, 12);
      assert Targets(lookup.arrays)[..12] == Targets(lookup.arrays);
    } else {
      SumFill(HoursPerYear, 0.0);
    }
  }

  /** The columns written back for a hub. */
  datatype DemandUpdate = DemandUpdate(demandProfile: seq<real>, annualDemand: real)

  /** The update for one hub: its demand profile and that profile's total. */
  function HubUpdate(lookup: BehaviourLookup): DemandUpdate
    requires LookupWellShaped(lookup)
  {
    DemandUpdate(HubDemand(lookup), Sum(HubDemand(lookup)))
  }

  /** `runChargingDemandAnalysis` without its I/O: one update per hub, in order. */
  method RunChargingDemandAnalysis(hubs: seq<BehaviourLookup>) returns (updates: seq<DemandUpdate>)
    requires forall i :: 0 <= i < |hubs| ==> LookupWellShaped(hubs[i])
    ensures |updates| == |hubs|
    ensures forall i :: 0 <= i < |hubs| ==> updates[i] == HubUpdate(hubs[i])
  {
    updates := [];
    var i := 0;
    while i < |hubs|
      invariant 0 <= i <= |hubs| && |updates| == i
      invariant forall j :: 0 <= j < i ==> updates[j] == HubUpdate(hubs[j])
    {
      var demandProfile: seq<real>;
      if hubs[i].Arrays? {
        demandProfile := SynthesizeDemand(hubs[i].arrays);
      } else {
        demandProfile := Fill(HoursPerYear, 0.0);
      }
      assert demandProfile == HubDemand(hubs[i]);
      updates := updates + [DemandUpdate(demandProfile, Sum(demandProfile))];
      i := i + 1;
    }
  }

  // ---------------------------------------------------------------------
  // Daily and monthly totals

  /**
   * `calculateChargingDemandDailyTotals` for one hub: 365 day totals, each
   * the sum of the day's 24 hours (a short profile gives short or empty days).
   */
  method DailyTotals(profile: seq<real>) returns (totals: seq<real>)
    ensures totals == DayTotals(profile, DaysPerYear)
  {
    totals := Fill(DaysPerYear, 0.0);
    var d := 0;
    while d < DaysPerYear
      invariant 0 <= d <= DaysPerYear && |totals| == DaysPerYear
      invariant forall k :: 0 <= k < d ==> totals[k] == DayTotal(profile, k)
    {
      totals := totals[d := BlockTotal(profile, d * 24, d * 24 + 24)];
      d := d + 1;
    }
  }

  /** The day totals account for exactly the first 8760 hours. */
  lemma DailyTotalsSum(profile: seq<real>)
    ensures Sum(DayTotals(profile, DaysPerYear)) == Sum(profile[..MinNat(HoursPerYear, |profile|)])
  {
    var t := DayTotals(profile, DaysPerYear);
    DayTotalsPrefix(profile, DaysPerYear, DaysPerYear);
    assert t[..DaysPerYear] == t;
  }

  /**
   * `calculateChargingDemandMonthlyTotals` for one hub: twelve month totals of
   * the day totals, taken from a running day index.
   */
  method MonthlyTotalsFromDaily(daily: seq<real>) returns (totals: seq<real>)
    ensures totals == MonthTotals(daily, 1)
  {
    totals := Fill(12, 0.0);
    var idx := 0;
    var m := 0;
    while m < 12
      invariant 0 <= m <= 12 && |totals| == 12
      invariant idx == DayOffset(m)
      invariant forall k :: 0 <= k < m ==> totals[k] == MonthTotal(daily, 1, k)
    {
      var days := MonthDays[m];
      totals := totals[m := BlockTotal(daily, idx, idx + days)];
      idx := idx + days;
      m := m + 1;
    }
  }

  /** For 365 day totals, the month totals add up to the day totals. */
  lemma MonthsOfDaysSum(daily: seq<real>)
    requires |daily| == DaysPerYear
    ensures Sum(MonthTotals(daily, 1)) == Sum(daily)
  {
    MonthTotalsSum(daily, 1);
    YearLength();
    assert daily[..DaysPerYear] == daily;
  }

  /** Month totals taken over the day totals equal month totals taken over the hours. */
  lemma MonthsOfDays(profile: seq<real>)
    ensures MonthTotals(DayTotals(profile, DaysPerYear), 1) == MonthTotals(profile, 24)
  {
    var days := DayTotals(profile, DaysPerYear);
    forall m | 0 <= m < 12
      ensures MonthTotals(days, 1)[m] == MonthTotals(profile, 24)[m]
    {
      var lo, hi := DayOffset(m), DayOffset(m + 1);
      DayOffsetAscending(m, m + 1);
      DayOffsetAscending(m + 1, 12);
      YearLength();
      PrefixSlice(days, lo, hi);
      DayTotalsPrefix(profile, DaysPerYear, lo);
      DayTotalsPrefix(profile, DaysPerYear, hi);
      PrefixSlice(profile, 24 * lo, 24 * hi);
    }
  }

  /**
   * The two summary stages applied to a synthesized hub profile give back
   * the month targets: the configured monthly energy of every month with
   * some non-zero weight.
   */
  lemma DemandPipelineMonthlyTotals(b: BehaviourArrays)
    requires WellShaped(b)
    ensures MonthTotals(DayTotals(Synthesized(b, 12), DaysPerYear), 1) == Targets(b)
  {
    MonthsOfDays(Synthesized(b, 12));
    SynthesizedMonthTotals(b);
  }

  // ---------------------------------------------------------------------
  // Charging capacity

  /** `(charger_power || 0) * (number_of_chargers || 0)`, in kW. */
  function HubCapacity(chargerPower: Option<real>, numberOfChargers: Option<real>): (r: real)
    ensures chargerPower.None? || numberOfChargers.None? ==> r == 0.0
    ensures OrZero(chargerPower) >= 0.0 && OrZero(numberOfChargers) >= 0.0 ==> r >= 0.0
  {
    OrZero(chargerPower) * OrZero(numberOfChargers)
  }

  /** Each day of a constant hourly profile totals 24 times the constant. */
  lemma ConstantDayTotals(capacity: real, d: nat)
    requires d < DaysPerYear
    ensures DayTotal(Fill(HoursPerYear, capacity), d) == 24.0 * capacity
  {
    var day := Slice(Fill(HoursPerYear, capacity), 24 * d, 24 * d + 24);
    assert day == Fill(24, capacity);
    SumFill(24, capacity);
  }

  /** The columns written back for a hub's capacity. */
  datatype CapacityUpdate = CapacityUpdate(capacityProfile: seq<real>, dailyTotals: seq<real>)

  /**
   * `calculateChargingCapacityProfiles` for one hub: the capacity in every
   * hour of the year, and 365 daily totals of 24 times the capacity.
   */
  function CapacityProfiles(chargerPower: Option<real>, numberOfChargers: Option<real>): (r: CapacityUpdate)
    ensures |r.capacityProfile| == HoursPerYear
    ensures forall i :: 0 <= i < HoursPerYear ==>
      r.capacityProfile[i] == HubCapacity(chargerPower, numberOfChargers)
    ensures |r.dailyTotals| == DaysPerYear
    ensures forall d :: 0 <= d < DaysPerYear ==>
      r.dailyTotals[d] == 24.0 * HubCapacity(chargerPower, numberOfChargers)
  {
    var capacity := HubCapacity(chargerPower, numberOfChargers);
    var profile := Fill(HoursPerYear, capacity);
    var daily := DayTotals(profile, DaysPerYear);
    assert forall d :: 0 <= d < DaysPerYear ==> daily[d] == 24.0 * capacity by {
      forall d | 0 <= d < DaysPerYear ensures daily[d] == 24.0 * capacity {
        ConstantDayTotals(capacity, d);
      }
    }
    CapacityUpdate(profile, daily)
  }
}
