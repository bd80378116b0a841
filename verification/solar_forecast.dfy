/**
 * Multi-year extrapolation and the solar balance: the one-year solar profile
 * is degraded year on year over the project life; each hub's demand is grown
 * by its growth rate, capped by its charger capacity and summed over hubs;
 * then solar consumed on site, the solar excess and the demand left after
 * solar are derived hour by hour.
 */
module SolarForecast {
  import opened Series

  /**
   * `PROJECT_LIFE`: the forecast horizon in years, shared by every stage
   * (the doc comment of the solar stage speaks of 15 years; the constant is 3).
   */
  const ProjectLife: nat := 3

  // ---------------------------------------------------------------------
  // Solar degradation

  /** `1 - annual_degradation / 100`, a null degradation reading as 0. */
  function DegradationFactor(degradation: Option<real>): real
  {
    1.0 - OrZero(degradation) / 100.0
  }

  /** Year y of the forecast: year 0 is the base, each later year the previous one degraded. */
  function DegradedYear(base: seq<real>, degradation: Option<real>, year: nat): (r: seq<real>)
    ensures |r| == |base|
  {
    if year == 0 then base else Scaled(DegradedYear(base, degradation, year - 1), DegradationFactor(degradation))
  }

  /** One year of degradation scales every interval by the degradation factor. */
  lemma {:induction false} DegradedYearStep(base: seq<real>, degradation: Option<real>, year: nat, i: nat)
    requires i < |base|
    ensures DegradedYear(base, degradation, year + 1)[i]
         == DegradedYear(base, degradation, year)[i] * DegradationFactor(degradation)
  {
    assert DegradedYear(base, degradation, year + 1)
        == Scaled(DegradedYear(base, degradation, year), DegradationFactor(degradation));
  }

  /** Degradation compounds: year y is the base scaled by the factor to the power y. */
  lemma {:induction false} DegradedYearClosedForm(base: seq<real>, degradation: Option<real>, year: nat)
    ensures DegradedYear(base, degradation, year) == Scaled(base, Pow(DegradationFactor(degradation), year))
  {
    var f := DegradationFactor(degradation);
    if year == 0 {
      calc {
        Scaled(base, Pow(f, 0));
        Scaled(base, 1.0);
        { assert forall i :: 0 <= i < |base| ==> Scaled(base, 1.0)[i] == base[i]; }
        base;
      }
    } else {
      var p := Pow(f, year - 1);
      calc {
        DegradedYear(base, degradation, year);
        Scaled(DegradedYear(base, degradation, year - 1), f);
        { DegradedYearClosedForm(base, degradation, year - 1); }
        Scaled(Scaled(base, p), f);
        { ScaledTwice(base, p, f); }
        Scaled(base, p * f);
        { assert Pow(f, year) == p * f; }
        Scaled(base, Pow(f, year));
      }
    }
  }

  /** With a degradation in [0, 100] and a nonnegative base, no year produces more than the one before. */
  lemma {:induction false} DegradationNonIncreasing(base: seq<real>, degradation: Option<real>, year: nat, i: nat)
    requires 0.0 <= OrZero(degradation) <= 100.0
    requires i < |base| && base[i] >= 0.0
    ensures 0.0 <= DegradedYear(base, degradation, year + 1)[i] <= DegradedYear(base, degradation, year)[i]
  {
    FactorInUnitRange(degradation);
    DegradedYearStep(base, degradation, year, i);
    DegradedYearNonNegative(base, degradation, year, i);
    var prev := DegradedYear(base, degradation, year)[i];
    var next := DegradedYear(base, degradation, year + 1)[i];
    ShrinkingProduct(prev, DegradationFactor(degradation));
    assert next == prev * DegradationFactor(degradation);
    assert prev * DegradationFactor(degradation) <= prev;
    assert next <= prev;
  }

  lemma FactorInUnitRange(degradation: Option<real>)
    requires 0.0 <= OrZero(degradation) <= 100.0
    ensures 0.0 <= DegradationFactor(degradation) <= 1.0
  {
  }

  lemma {:induction false} DegradedYearNonNegative(base: seq<real>, degradation: Option<real>, year: nat, i: nat)
    requires 0.0 <= DegradationFactor(degradation)
    requires i < |base| && base[i] >= 0.0
    ensures DegradedYear(base, degradation, year)[i] >= 0.0
  {
    if year > 0 {
      DegradedYearNonNegative(base, degradation, year - 1, i);
      DegradedYearStep(base, degradation, year - 1, i);
      NonNegativeProduct(DegradedYear(base, degradation, year - 1)[i], DegradationFactor(degradation));
    }
  }

  lemma NonNegativeProduct(a: real, b: real)
    requires a >= 0.0 && b >= 0.0
    ensures a * b >= 0.0
  {
  }

  lemma ShrinkingProduct(a: real, f: real)
    requires a >= 0.0 && 0.0 <= f <= 1.0
    ensures 0.0 <= a * f <= a
  {
  }

  lemma {:induction false} PowNonNegative(b: real, n: nat)
    requires b >= 0.0
    ensures Pow(b, n) >= 0.0
  {
    if n > 0 {
      PowNonNegative(b, n - 1);
    }
  }

  /** The solar forecast: `ProjectLife` years of the degraded base profile. */
  function SolarYears(base: seq<real>, degradation: Option<real>): (r: Years)
    ensures |r| == ProjectLife
    ensures forall y :: 0 <= y < ProjectLife ==> r[y] == DegradedYear(base, degradation, y)
  {
    seq(ProjectLife, y requires 0 <= y < ProjectLife => DegradedYear(base, degradation, y))
  }

  /** The generation_data columns the solar forecast reads; a non-array profile is None. */
  datatype GenerationForecastRow = GenerationForecastRow(profile: Option<seq<real>>, annualDegradation: Option<real>)

  /**
   * `runSolarForecasting` without its I/O: None means nothing is written (no
   * generation row, or no profile array).
   */
  method RunSolarForecasting(row: Option<GenerationForecastRow>) returns (out: Option<Years>)
    ensures out.None? <==> row.None? || row.value.profile.None?
    ensures out.Some? ==> out.value == SolarYears(row.value.profile.value, row.value.annualDegradation)
  {
    if row.None? || row.value.profile.None? {
      return None;
    }
    var base := row.value.profile.value;
    var degradation := row.value.annualDegradation;
    var currentProfile := base;
    var allYears: Years := [];
    var year := 0;
    while year < ProjectLife
      invariant 0 <= year <= ProjectLife
      invariant currentProfile == DegradedYear(base, degradation, if year == 0 then 0 else year - 1)
      invariant allYears == SolarYears(base, degradation)[..year]
    {
      if year > 0 {
        currentProfile := Scaled(currentProfile, DegradationFactor(degradation));
      }
      allYears := allYears + [currentProfile];
      year := year + 1;
    }
    return Some(allYears);
  }

  // ---------------------------------------------------------------------
  // Capped, grown demand summed over hubs

  /** The hub columns and the growth rates of its charging profile (None: no profile, no behaviour row or no rates). */
  datatype HubForecastInput = HubForecastInput(
    demandProfile: seq<real>, capacityProfile: seq<real>, growthRates: Option<seq<real>>)

  /** `growthRates[Math.min(year, growthRates.length - 1)] ?? 0`: the rate for the year, or the last one. */
  function GrowthRate(rates: seq<real>, year: nat): (r: real)
    ensures |rates| == 0 ==> r == 0.0
    ensures 0 < |rates| && year < |rates| ==> r == rates[year]
    ensures 0 < |rates| <= year ==> r == rates[|rates| - 1]
  {
    if |rates| == 0 then 0.0 else rates[if year < |rates| - 1 then year else |rates| - 1]
  }

  /** `growth`: 1, or 1 + rate / 100 for a hub with growth rates. */
  function GrowthFactor(rates: Option<seq<real>>, year: nat): real
  {
    match rates
    case None => 1.0
    case Some(rs) => 1.0 + GrowthRate(rs, year) / 100.0
  }

  /** `Math.pow(growth, year)`: the multiplier applied to a hub's demand in year y. */
  function YearMultiplier(rates: Option<seq<real>>, year: nat): real
  {
    Pow(GrowthFactor(rates, year), year)
  }

  /** A hub's demand in year y, grown and capped interval by interval by its charger capacity. */
  function CappedHub(hub: HubForecastInput, year: nat): (r: seq<real>)
    ensures |r| == |hub.demandProfile|
    ensures forall i :: 0 <= i < |r| ==>
      r[i] == Min(hub.demandProfile[i] * YearMultiplier(hub.growthRates, year), At(hub.capacityProfile, i))
  {
    seq(|hub.demandProfile|, i requires 0 <= i < |hub.demandProfile| =>
      Min(hub.demandProfile[i] * YearMultiplier(hub.growthRates, year), At(hub.capacityProfile, i)))
  }

  /** Capping: a hub never draws more than its charger capacity in any interval. */
  lemma CappedHubWithinCapacity(hub: HubForecastInput, year: nat, i: nat)
    requires i < |hub.demandProfile|
    ensures CappedHub(hub, year)[i] <= At(hub.capacityProfile, i)
  {
    var grown := hub.demandProfile[i] * YearMultiplier(hub.growthRates, year);
    assert CappedHub(hub, year)[i] == Min(grown, At(hub.capacityProfile, i));
  }

  /** Interval i of every profile, a missing entry reading as 0. */
  function Column(profiles: seq<seq<real>>, i: nat): (r: seq<real>)
    ensures |r| == |profiles| && forall k :: 0 <= k < |profiles| ==> r[k] == At(profiles[k], i)
  {
    seq(|profiles|, k requires 0 <= k < |profiles| => At(profiles[k], i))
  }

  /** The capped profiles of all hubs for year y. */
  function HubProfiles(hubs: seq<HubForecastInput>, year: nat): (r: seq<seq<real>>)
    ensures |r| == |hubs| && forall k :: 0 <= k < |hubs| ==> r[k] == CappedHub(hubs[k], year)
  {
    seq(|hubs|, k requires 0 <= k < |hubs| => CappedHub(hubs[k], year))
  }

  /**
   * Gross demand of year y: as many intervals as the first hub's profile,
   * each the sum over hubs of their capped demand.
   */
  function GrossYear(hubs: seq<HubForecastInput>, year: nat): (r: seq<real>)
    requires |hubs| > 0
    ensures |r| == |hubs[0].demandProfile|
    ensures forall i :: 0 <= i < |r| ==> r[i] == Sum(Column(HubProfiles(hubs, year), i))
  {
    var profiles := HubProfiles(hubs, year);
    seq(|hubs[0].demandProfile|, i requires 0 <= i < |hubs[0].demandProfile| => Sum(Column(profiles, i)))
  }

  function GrossDemand(hubs: seq<HubForecastInput>): (r: Years)
    requires |hubs| > 0
    ensures |r| == ProjectLife && forall y :: 0 <= y < ProjectLife ==> r[y] == GrossYear(hubs, y)
  {
    seq(ProjectLife, y requires 0 <= y < ProjectLife => GrossYear(hubs, y))
  }

  /** The capacity profiles of all hubs. */
  function Capacities(hubs: seq<HubForecastInput>): (r: seq<seq<real>>)
    ensures |r| == |hubs| && forall k :: 0 <= k < |hubs| ==> r[k] == hubs[k].capacityProfile
  {
    seq(|hubs|, k requires 0 <= k < |hubs| => hubs[k].capacityProfile)
  }

  /**
   * Gross demand never exceeds the total charger capacity of the hubs that
   * cover the interval.
   */
  lemma GrossWithinCapacity(hubs: seq<HubForecastInput>, year: nat, i: nat)
    requires |hubs| > 0 && forall k :: 0 <= k < |hubs| ==> i < |hubs[k].demandProfile|
    ensures GrossYear(hubs, year)[i] <= Sum(Column(Capacities(hubs), i))
  {
    var used := Column(HubProfiles(hubs, year), i);
    var cap := Column(Capacities(hubs), i);
    forall k | 0 <= k < |hubs| ensures used[k] <= cap[k] {
      var p := CappedHub(hubs[k], year);
      assert used[k] == At(p, i);
      assert cap[k] == At(hubs[k].capacityProfile, i);
      CappedHubWithinCapacity(hubs[k], year, i);
      assert used[k] == p[i];
    }
    SumMonotone(used, cap);
  }

  /**
   * Growth rates are labelled cumulative but compounded again: from year 2
   * on, a positive rate r grows demand by more than the r % it stands for.
   */
  lemma CumulativeRateCompounded(rates: seq<real>, year: nat)
    requires year >= 2 && GrowthRate(rates, year) > 0.0
    ensures YearMultiplier(Some(rates), year) > 1.0 + GrowthRate(rates, year) / 100.0
  {
    var g := GrowthFactor(Some(rates), year);
    assert g > 1.0;
    PowMonotone(g, 1, year - 1);
    assert Pow(g, 1) == g;
    GrowingProduct(Pow(g, year - 1), g);
    assert Pow(g, year) == Pow(g, year - 1) * g;
  }

  lemma GrowingProduct(a: real, g: real)
    requires g > 1.0 && a >= g
    ensures a * g > g
  {
    assert a * g >= g * g;
  }

  /** The inner loop over hubs: grow and cap each hub's demand. */
  method CapHubs(hubs: seq<HubForecastInput>, year: nat) returns (hubProfiles: seq<seq<real>>)
    ensures hubProfiles == HubProfiles(hubs, year)
  {
    hubProfiles := [];
    var k := 0;
    while k < |hubs|
      invariant 0 <= k <= |hubs|
      invariant hubProfiles == HubProfiles(hubs, year)[..k]
    {
      var hub := hubs[k];
      var growth := 1.0;
      if hub.growthRates.Some? {
        var rate := GrowthRate(hub.growthRates.value, year);
        growth := 1.0 + rate / 100.0;
      }
      var multiplier := Pow(growth, year);
      assert multiplier == YearMultiplier(hub.growthRates, year);
      var grown := Scaled(hub.demandProfile, multiplier);
      var capped := seq(|grown|, i requires 0 <= i < |grown| => Min(grown[i], At(hub.capacityProfile, i)));
      assert capped == CappedHub(hub, year);
      hubProfiles := hubProfiles + [capped];
      k := k + 1;
    }
  }

  /** The accumulation loop: sum the hub profiles interval by interval. */
  method SumHubs(hubProfiles: seq<seq<real>>, intervals: nat) returns (totalProfile: seq<real>)
    ensures |totalProfile| == intervals
    ensures forall i :: 0 <= i < intervals ==> totalProfile[i] == Sum(Column(hubProfiles, i))
  {
    totalProfile := Fill(intervals, 0.0);
    var i := 0;
    while i < intervals
      invariant 0 <= i <= intervals && |totalProfile| == intervals
      invariant forall j :: 0 <= j < i ==> totalProfile[j] == Sum(Column(hubProfiles, j))
      invariant forall j :: i <= j < intervals ==> totalProfile[j] == 0.0
    {
      ghost var column := Column(hubProfiles, i);
      var k := 0;
      while k < |hubProfiles|
        invariant 0 <= k <= |hubProfiles| && |totalProfile| == intervals
        invariant forall j :: 0 <= j < i ==> totalProfile[j] == Sum(Column(hubProfiles, j))
        invariant forall j :: i < j < intervals ==> totalProfile[j] == 0.0
        invariant totalProfile[i] == Sum(column[..k])
      {
        assert column[..k + 1][..k] == column[..k];
        totalProfile := totalProfile[i := totalProfile[i] + At(hubProfiles[k], i)];
        k := k + 1;
      }
      assert column[..|hubProfiles|] == column;
      i := i + 1;
    }
  }

  /** A `charging_profile_behaviour` row: its charging profile and its growth rates (None: a null column). */
  datatype GrowthRow = GrowthRow(chargingProfileId: string, annualGrowthRates: Option<seq<real>>)

  /** A `charging_hubs` row: its demand and capacity profiles and the charging profile it links, if any. */
  datatype HubRow = HubRow(demandProfile: seq<real>, capacityProfile: seq<real>, chargingProfileId: Option<string>)

  /** `behaviourMap` after its loop: each profile's rates, a later row overwriting an earlier one. */
  function BehaviourMap(rows: seq<GrowthRow>): map<string, Option<seq<real>>>
  {
    if |rows| == 0 then map[]
    else BehaviourMap(rows[..|rows| - 1])[rows[|rows| - 1].chargingProfileId := rows[|rows| - 1].annualGrowthRates]
  }

  /** The map holds exactly the profiles that have a row, each with the rates of its last row. */
  lemma {:induction false} BehaviourMapLastRowWins(rows: seq<GrowthRow>, id: string)
    ensures id in BehaviourMap(rows) <==> exists k :: 0 <= k < |rows| && rows[k].chargingProfileId == id
    ensures id in BehaviourMap(rows) ==>
      exists k :: 0 <= k < |rows| && rows[k].chargingProfileId == id && BehaviourMap(rows)[id] == rows[k].annualGrowthRates
        && forall j :: k < j < |rows| ==> rows[j].chargingProfileId != id
  {
    if |rows| > 0 {
      var last := |rows| - 1;
      var prefix := rows[..last];
      BehaviourMapLastRowWins(prefix, id);
      if rows[last].chargingProfileId != id {
        if id in BehaviourMap(prefix) {
          var k :| 0 <= k < |prefix| && prefix[k].chargingProfileId == id
            && BehaviourMap(prefix)[id] == prefix[k].annualGrowthRates
            && forall j :: k < j < |prefix| ==> prefix[j].chargingProfileId != id;
          assert rows[k] == prefix[k];
        }
        assert (exists k :: 0 <= k < |rows| && rows[k].chargingProfileId == id) ==>
               (exists k :: 0 <= k < |prefix| && prefix[k].chargingProfileId == id);
      }
    }
  }

  /** The loop filling `behaviourMap` from the fetched rows. */
  method BuildBehaviourMap(rows: seq<GrowthRow>) returns (m: map<string, Option<seq<real>>>)
    ensures m == BehaviourMap(rows)
  {
    m := map[];
    var k := 0;
    while k < |rows|
      invariant 0 <= k <= |rows|
      invariant m == BehaviourMap(rows[..k])
    {
      assert rows[..k + 1][..k] == rows[..k];
      m := m[rows[k].chargingProfileId := rows[k].annualGrowthRates];
      k := k + 1;
    }
    assert rows[..|rows|] == rows;
  }

  /**
   * The rates a hub's demand grows by: its profile's rates when the hub
   * links a profile (`hub.charging_profile_id` truthy) whose map entry holds
   * rates (`behaviourMap[id]` truthy); None, growth 1, otherwise.
   */
  function HubRates(hub: HubRow, behaviours: map<string, Option<seq<real>>>): (r: Option<seq<real>>)
    ensures r.Some? <==>
      && hub.chargingProfileId.Some? && hub.chargingProfileId.value != ""
      && hub.chargingProfileId.value in behaviours && behaviours[hub.chargingProfileId.value].Some?
    ensures r.Some? ==> r == behaviours[hub.chargingProfileId.value]
  {
    match hub.chargingProfileId
    case None => None
    case Some(id) => if id != "" && id in behaviours then behaviours[id] else None
  }

  /** The hubs as the yearly loop reads them: their two profiles and their growth rates. */
  function HubInputs(hubs: seq<HubRow>, behaviours: map<string, Option<seq<real>>>): (r: seq<HubForecastInput>)
    ensures |r| == |hubs|
    ensures forall k :: 0 <= k < |hubs| ==>
      r[k] == HubForecastInput(hubs[k].demandProfile, hubs[k].capacityProfile, HubRates(hubs[k], behaviours))
  {
    seq(|hubs|, k requires 0 <= k < |hubs| =>
      HubForecastInput(hubs[k].demandProfile, hubs[k].capacityProfile, HubRates(hubs[k], behaviours)))
  }

  /** A hub whose profile has no behaviour row grows by a factor of 1 in every year. */
  lemma NoBehaviourRowNoGrowth(hub: HubRow, rows: seq<GrowthRow>, year: nat)
    requires hub.chargingProfileId.Some?
    requires forall k :: 0 <= k < |rows| ==> rows[k].chargingProfileId != hub.chargingProfileId.value
    ensures HubRates(hub, BehaviourMap(rows)).None?
    ensures GrowthFactor(HubRates(hub, BehaviourMap(rows)), year) == 1.0
  {
    BehaviourMapLastRowWins(rows, hub.chargingProfileId.value);
  }

  /**
   * `runCappedEnergyDemand` without its I/O. A failed or empty hubs query
   * and a failed behaviours query (None) write nothing. Otherwise the
   * stage writes `ProjectLife` years of summed, capped, grown demand.
   */
  method RunCappedEnergyDemand(hubs: Option<seq<HubRow>>, behaviours: Option<seq<GrowthRow>>)
    returns (out: Option<Years>)
    ensures out.None? <==> hubs.None? || |hubs.value| == 0 || behaviours.None?
    ensures out.Some? ==> out.value == GrossDemand(HubInputs(hubs.value, BehaviourMap(behaviours.value)))
  {
    if hubs.None? || |hubs.value| == 0 {
      return None;
    }
    if behaviours.None? {
      return None;
    }
    var behaviourMap := BuildBehaviourMap(behaviours.value);
    var inputs := HubInputs(hubs.value, behaviourMap);
    var allYears: Years := [];
    var year := 0;
    while year < ProjectLife
      invariant 0 <= year <= ProjectLife
      invariant allYears == GrossDemand(inputs)[..year]
    {
      var hubProfiles := CapHubs(inputs, year);
      var intervals := |hubProfiles[0]|;
      var totalProfile := SumHubs(hubProfiles, intervals);
      assert totalProfile == GrossYear(inputs, year);
      allYears := allYears + [totalProfile];
      year := year + 1;
    }
    return Some(allYears);
  }

  // ---------------------------------------------------------------------
  // Solar consumed, solar excess and demand after solar

  /** `generated_solar_energy_consumed`: the smaller of solar and demand in every interval. */
  function Consumed(solar: Years, demand: Years): Years
  {
    Pairwise(solar, demand, Min)
  }

  /** One interval of the excess: solar not consumed, never negative. */
  function ExcessOf(solar: real, consumed: real): real
  {
    Max(solar - consumed, 0.0)
  }

  /** One interval of the demand after solar. */
  function Remaining(demand: real, consumed: real): real
  {
    demand - consumed
  }

  /** `generated_solar_energy_excess_post_consumption`. */
  function Excess(solar: Years, consumed: Years): Years
  {
    Pairwise(solar, consumed, ExcessOf)
  }

  /** `energy_demand_post_solar`. */
  function PostSolar(demand: Years, consumed: Years): Years
  {
    Pairwise(demand, consumed, Remaining)
  }

  /** Solar consumed is bounded by both the solar generated and the demand. */
  lemma ConsumedBounds(solar: Years, demand: Years, y: nat, i: nat)
    requires y < |Consumed(solar, demand)| && i < |Consumed(solar, demand)[y]|
    ensures Consumed(solar, demand)[y][i] <= solar[y][i]
    ensures Consumed(solar, demand)[y][i] <= demand[y][i]
    ensures Consumed(solar, demand)[y][i] == solar[y][i] || Consumed(solar, demand)[y][i] == demand[y][i]
  {
  }

  /** Per interval, solar splits exactly into the part consumed and the excess. */
  lemma SolarSplit(solar: Years, demand: Years, y: nat, i: nat)
    requires y < |Consumed(solar, demand)| && i < |Consumed(solar, demand)[y]|
    ensures |Excess(solar, Consumed(solar, demand))| == |Consumed(solar, demand)|
    ensures |Excess(solar, Consumed(solar, demand))[y]| == |Consumed(solar, demand)[y]|
    ensures Consumed(solar, demand)[y][i] + Excess(solar, Consumed(solar, demand))[y][i] == solar[y][i]
  {
  }

  /** Per interval, demand splits exactly into the solar consumed and the demand left after solar. */
  lemma DemandSplit(solar: Years, demand: Years, y: nat, i: nat)
    requires y < |Consumed(solar, demand)| && i < |Consumed(solar, demand)[y]|
    ensures |PostSolar(demand, Consumed(solar, demand))| == |Consumed(solar, demand)|
    ensures |PostSolar(demand, Consumed(solar, demand))[y]| == |Consumed(solar, demand)[y]|
    ensures Consumed(solar, demand)[y][i] + PostSolar(demand, Consumed(solar, demand))[y][i] == demand[y][i]
    ensures PostSolar(demand, Consumed(solar, demand))[y][i] == Max(demand[y][i] - solar[y][i], 0.0)
  {
  }

  /**
   * `runGeneratedSolarEnergyConsumed` without its I/O: None (nothing written)
   * when either input is missing.
   */
  method RunGeneratedSolarEnergyConsumed(solar: Option<Years>, demand: Option<Years>) returns (out: Option<Years>)
    ensures out.None? <==> solar.None? || demand.None?
    ensures out.Some? ==> out.value == Consumed(solar.value, demand.value)
  {
    if solar.None? || demand.None? {
      return None;
    }
    var consumed := CombineYears(solar.value, demand.value, Min);
    return Some(consumed);
  }

  /** `runGeneratedSolarEnergyExcessPostConsumption` without its I/O. */
  method RunGeneratedSolarEnergyExcess(solar: Option<Years>, consumed: Option<Years>) returns (out: Option<Years>)
    ensures out.None? <==> solar.None? || consumed.None?
    ensures out.Some? ==> out.value == Excess(solar.value, consumed.value)
  {
    if solar.None? || consumed.None? {
      return None;
    }
    var excess := CombineYears(solar.value, consumed.value, ExcessOf);
    return Some(excess);
  }

  /** `runEnergyDemandPostSolar` without its I/O. */
  method RunEnergyDemandPostSolar(demand: Option<Years>, consumed: Option<Years>) returns (out: Option<Years>)
    ensures out.None? <==> demand.None? || consumed.None?
    ensures out.Some? ==> out.value == PostSolar(demand.value, consumed.value)
  {
    if demand.None? || consumed.None? {
      return None;
    }
    var postSolar := CombineYears(demand.value, consumed.value, Remaining);
    return Some(postSolar);
  }
}
