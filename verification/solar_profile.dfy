/**
 * Solar profile resolution: an orientation and tilt select a per-kWp hourly
 * reference curve (in Wh) from the Madrid dataset, which is scaled by the
 * installed size and the system losses into kWh and summarised into monthly
 * totals, hour-of-day averages and a specific yield.
 */
module SolarProfile {
  import opened Series

  /** The eight compass orientations and their azimuths in degrees. */
  const OrientationToAzimuth: map<string, int> :=
    map["N" := 0, "NE" := 45, "E" := 90, "SE" := 135,
        "S" := 180, "SW" := 225, "W" := 270, "NW" := 315]

  const CompassKeys: set<string> := {"N", "NE", "E", "SE", "S", "SW", "W", "NW"}

  /** The azimuth of an orientation key, or None for any other string. */
  function Azimuth(orientation: string): (r: Option<int>)
    ensures r.Some? <==> orientation in CompassKeys
    ensures r.Some? ==> r.value % 45 == 0 && 0 <= r.value <= 315
  {
    if orientation in OrientationToAzimuth then Some(OrientationToAzimuth[orientation]) else None
  }

  /** Distinct compass keys have distinct azimuths. */
  lemma AzimuthInjective(o1: string, o2: string)
    requires Azimuth(o1).Some? && Azimuth(o2).Some? && o1 != o2
    ensures Azimuth(o1).value != Azimuth(o2).value
  {
  }

  /** `Math.round(tilt / 5) * 5`, where `Math.round(x)` is `floor(x + 0.5)`. */
  function RoundTilt(tilt: real): (r: int)
    ensures r % 5 == 0
    ensures r as real - 2.5 <= tilt < r as real + 2.5
  {
    (tilt / 5.0 + 0.5).Floor * 5
  }

  /**
   * The reference dataset for the fixed Madrid location: an hourly per-kWp
   * curve (Wh) for each (azimuth, rounded tilt) key it covers.
   */
  type SolarDataset = map<(int, int), seq<real>>

  /** Every curve of the dataset covers at least one day, so each hour of day has a sample. */
  ghost predicate DayLongCurves(ds: SolarDataset)
  {
    forall k :: k in ds ==> |ds[k]| >= 24
  }

  /** `getMadridSolarProfile`: None for an unknown orientation or a missing dataset entry. */
  function ResolveProfile(ds: SolarDataset, orientation: string, tilt: real): (r: Option<seq<real>>)
    ensures r.None? <==> orientation !in CompassKeys || (Azimuth(orientation).value, RoundTilt(tilt)) !in ds
    ensures r.Some? ==> r.value == ds[(Azimuth(orientation).value, RoundTilt(tilt))]
  {
    match Azimuth(orientation)
    case None => None
    case Some(az) =>
      var key := (az, RoundTilt(tilt));
      if key in ds then Some(ds[key]) else None
  }

  /** `1 - (system_losses || 0) / 100`: a missing loss figure counts as 0 %. */
  function LossFactor(losses: Option<real>): real
  {
    match losses
    case None => 1.0
    case Some(l) => 1.0 - l / 100.0
  }

  /** kWh per Wh of the per-kWp curve: the installed size in kWp, less the losses. */
  function ScaleFactor(kWp: real, losses: Option<real>): real
  {
    kWp / 1000.0 * LossFactor(losses)
  }

  /** The scaling step: Wh per kWp to kWh for the installed size, less losses. */
  function ScaleProfile(raw: seq<real>, kWp: real, losses: Option<real>): (r: seq<real>)
    ensures |r| == |raw|
    ensures forall i :: 0 <= i < |raw| ==> r[i] == raw[i] * kWp / 1000.0 * LossFactor(losses)
  {
    seq(|raw|, i requires 0 <= i < |raw| => raw[i] * kWp / 1000.0 * LossFactor(losses))
  }

  /** Scaling is linear: the annual total scales by the same factor as every hour. */
  lemma ScaledTotal(raw: seq<real>, kWp: real, losses: Option<real>)
    ensures Sum(ScaleProfile(raw, kWp, losses)) == Sum(raw) * ScaleFactor(kWp, losses)
  {
    var c := ScaleFactor(kWp, losses);
    var r := ScaleProfile(raw, kWp, losses);
    forall i | 0 <= i < |raw| ensures r[i] == raw[i] * c {
      assert raw[i] * kWp / 1000.0 * LossFactor(losses) == raw[i] * c;
    }
    SumScaled(raw, r, c);
  }

  /** For a one-year hourly profile, the month totals sum to the annual total. */
  lemma MonthTotalsSumFullYear(profile: seq<real>)
    requires |profile| == HoursPerYear
    ensures Sum(MonthTotals(profile, 24)) == Sum(profile)
  {
    MonthTotalsSum(profile, 24);
    YearLength();
    assert profile[..|profile|] == profile;
  }

  /**
   * `getMonthlyTotals`: twelve month totals, each the sum of that month's
   * hours, taken from a running hour index.
   */
  method MonthlyTotals(profile: seq<real>) returns (totals: seq<real>)
    ensures totals == MonthTotals(profile, 24)
  {
    totals := [];
    var idx := 0;
    var m := 0;
    while m < 12
      invariant 0 <= m <= 12
      invariant idx == 24 * DayOffset(m)
      invariant |totals| == m
      invariant forall k :: 0 <= k < m ==> totals[k] == MonthTotal(profile, 24, k)
    {
      var days := MonthDays[m];
      var total := BlockTotal(profile, idx, idx + days * 24);
      assert total == MonthTotal(profile, 24, m);
      totals := totals + [total];
      idx := idx + days * 24;
      m := m + 1;
    }
  }

  /** Sum of the entries whose index falls on hour-of-day h. */
  function HourSum(s: seq<real>, h: nat): real
  {
    if |s| == 0 then 0.0
    else HourSum(s[..|s| - 1], h) + (if (|s| - 1) % 24 == h then s[|s| - 1] else 0.0)
  }

  /** Number of indices below n that fall on hour-of-day h. */
  function HourCount(n: nat, h: nat): nat
  {
    if n == 0 then 0 else HourCount(n - 1, h) + (if (n - 1) % 24 == h then 1 else 0)
  }

  lemma {:induction false} HourCountPositive(n: nat, h: nat)
    requires h < 24 && h < n
    ensures HourCount(n, h) >= 1
  {
    if n - 1 != h {
      HourCountPositive(n - 1, h);
    }
  }

  /**
   * `getHourlyAverages`: entry h is the mean of all entries whose index is h
   * modulo 24.
   */
  function HourAverages(profile: seq<real>): (r: seq<real>)
    requires |profile| >= 24
    ensures |r| == 24
    ensures forall h :: 0 <= h < 24 ==> HourCount(|profile|, h) > 0
    ensures forall h :: 0 <= h < 24 ==> r[h] * HourCount(|profile|, h) as real == HourSum(profile, h)
  {
    HourAveragesDefined(profile);
    seq(24, h requires 0 <= h < 24 => HourSum(profile, h) / HourCount(|profile|, h) as real)
  }

  lemma HourAveragesDefined(profile: seq<real>)
    requires |profile| >= 24
    ensures forall h :: 0 <= h < 24 ==> HourCount(|profile|, h) > 0
  {
    forall h | 0 <= h < 24 ensures HourCount(|profile|, h) > 0 {
      HourCountPositive(|profile|, h);
    }
  }

  method HourlyAverages(profile: seq<real>) returns (avg: seq<real>)
    requires |profile| >= 24
    ensures avg == HourAverages(profile)
  {
    var hourlySums := new real[24](_ => 0.0);
    var hourlyCounts := new nat[24](_ => 0);
    var i := 0;
    while i < |profile|
      invariant 0 <= i <= |profile|
      invariant forall h :: 0 <= h < 24 ==>
        hourlySums[h] == HourSum(profile[..i], h) && hourlyCounts[h] == HourCount(i, h)
    {
      var hour := i % 24;
      assert profile[..i + 1][..i] == profile[..i];
      hourlySums[hour] := hourlySums[hour] + profile[i];
      hourlyCounts[hour] := hourlyCounts[hour] + 1;
      i := i + 1;
    }
    assert profile[..|profile|] == profile;
    avg := [];
    var h := 0;
    while h < 24
      invariant 0 <= h <= 24 && |avg| == h
      invariant forall k :: 0 <= k < 24 ==>
        hourlySums[k] == HourSum(profile, k) && hourlyCounts[k] == HourCount(|profile|, k)
      invariant forall k :: 0 <= k < h ==> avg[k] == HourAverages(profile)[k]
    {
      HourCountPositive(|profile|, h);
      avg := avg + [hourlySums[h] / hourlyCounts[h] as real];
      h := h + 1;
    }
  }

  /** `getSolarYield`: annual generation per installed kWp, or 0 without a size. */
  function SolarYield(profile: seq<real>, kWp: real): (r: real)
    ensures kWp == 0.0 ==> r == 0.0
    ensures kWp != 0.0 ==> r * kWp == Sum(profile)
  {
    if kWp == 0.0 then 0.0 else Sum(profile) / kWp
  }

  /** The generation_data columns the analysis reads. */
  datatype GenerationRow = GenerationRow(
    orientation: string, tilt: real, systemSizeKWp: real, systemLosses: Option<real>)

  /** The columns the analysis writes back. */
  datatype GenerationOutputs = GenerationOutputs(
    profile: seq<real>, monthlyTotals: seq<real>, hourlyAverages: seq<real>, solarYield: real)

  /** What the analysis writes for a reference curve and a generation row. */
  function Outputs(raw: seq<real>, g: GenerationRow): (r: GenerationOutputs)
    requires |raw| >= 24
  {
    var profile := ScaleProfile(raw, g.systemSizeKWp, g.systemLosses);
    GenerationOutputs(profile, MonthTotals(profile, 24), HourAverages(profile),
                      SolarYield(profile, g.systemSizeKWp))
  }

  /**
   * For a one-year curve the twelve month totals add up to the annual
   * generation, which is the curve's total times the scale factor.
   */
  lemma OutputsSummarise(raw: seq<real>, g: GenerationRow)
    requires |raw| == HoursPerYear
    ensures Sum(Outputs(raw, g).monthlyTotals) == Sum(Outputs(raw, g).profile)
    ensures Sum(Outputs(raw, g).profile) == Sum(raw) * ScaleFactor(g.systemSizeKWp, g.systemLosses)
  {
    MonthTotalsSumFullYear(ScaleProfile(raw, g.systemSizeKWp, g.systemLosses));
    ScaledTotal(raw, g.systemSizeKWp, g.systemLosses);
  }

  /**
   * `runMadridEnergyAnalysis` without its I/O: None means nothing is written
   * (no generation row, or no reference curve for its orientation and tilt).
   */
  method RunMadridEnergyAnalysis(ds: SolarDataset, gen: Option<GenerationRow>)
    returns (out: Option<GenerationOutputs>)
    requires DayLongCurves(ds)
    ensures out.None? <==> gen.None? || ResolveProfile(ds, gen.value.orientation, gen.value.tilt).None?
    ensures out.Some? ==>
      out.value == Outputs(ResolveProfile(ds, gen.value.orientation, gen.value.tilt).value, gen.value)
  {
    if gen.None? {
      return None;
    }
    var g := gen.value;
    var raw := ResolveProfile(ds, g.orientation, g.tilt);
    if raw.None? {
      return None;
    }
    var profile := ScaleProfile(raw.value, g.systemSizeKWp, g.systemLosses);
    var monthly := MonthlyTotals(profile);
    var hourly := HourlyAverages(profile);
    var solarYield := SolarYield(profile, g.systemSizeKWp);
    out := Some(GenerationOutputs(profile, monthly, hourly, solarYield));
  }
}
