/**
 * Battery dispatch: within each forecast year the battery starts empty and,
 * interval by interval, charges from the solar excess and discharges into
 * the demand left after solar, limited by its power rating and capacity.
 * Grid charging is a placeholder that is always 0.
 */
module Battery {
  import opened Series
  import SolarForecast

  /** The storage_data columns the dispatch reads (no other storage field is used). */
  datatype StorageRow = StorageRow(capacityKWh: real, powerKW: real)

  /** The five figures recorded for one interval. */
  datatype BatteryInterval = BatteryInterval(
    startSoc: real, chargeFromSolar: real, chargeFromGrid: real, discharge: real, endSoc: real)

  /**
   * One interval of dispatch from a given starting state of charge: charge
   * is the solar excess limited by power and free capacity, discharge the
   * demand limited by power and stored energy, and the end state is clamped
   * to [0, capacity]; each of the first two is floored at 0.
   */
  function Dispatch(startSoc: real, excess: real, demand: real, capacity: real, power: real): (r: BatteryInterval)
    ensures r.startSoc == startSoc && r.chargeFromGrid == 0.0
  {
    var chargeFromSolar := Max(0.0, Min(Min(excess, power), capacity - startSoc));
    var chargeFromGrid := 0.0;
    var discharge := Max(0.0, Min(Min(power, demand), startSoc + chargeFromSolar + chargeFromGrid));
    var endSoc := Max(0.0, Min(capacity, startSoc + chargeFromSolar + chargeFromGrid - discharge));
    BatteryInterval(startSoc, chargeFromSolar, chargeFromGrid, discharge, endSoc)
  }

  /** The charge limits: never negative, and within power, free capacity and excess where those are not negative. */
  lemma ChargeBounds(startSoc: real, excess: real, demand: real, capacity: real, power: real)
    ensures var r := Dispatch(startSoc, excess, demand, capacity, power);
      && r.chargeFromSolar >= 0.0
      && (power >= 0.0 ==> r.chargeFromSolar <= power)
      && (capacity - startSoc >= 0.0 ==> r.chargeFromSolar <= capacity - startSoc)
      && (excess >= 0.0 ==> r.chargeFromSolar <= excess)
  {
  }

  /** The discharge limits: never negative, and within power, stored energy and demand where those are not negative. */
  lemma DischargeBounds(startSoc: real, excess: real, demand: real, capacity: real, power: real)
    ensures var r := Dispatch(startSoc, excess, demand, capacity, power);
      && r.discharge >= 0.0
      && (power >= 0.0 ==> r.discharge <= power)
      && (startSoc >= 0.0 ==> r.discharge <= startSoc + r.chargeFromSolar + r.chargeFromGrid)
      && (demand >= 0.0 ==> r.discharge <= demand)
  {
  }

  /**
   * With a state of charge in [0, capacity], the end state stays in
   * [0, capacity] and the clamp never binds: energy is conserved.
   */
  lemma DispatchConserves(startSoc: real, excess: real, demand: real, capacity: real, power: real)
    requires 0.0 <= startSoc <= capacity
    ensures var r := Dispatch(startSoc, excess, demand, capacity, power);
      && 0.0 <= r.endSoc <= capacity
      && r.endSoc == r.startSoc + r.chargeFromSolar + r.chargeFromGrid - r.discharge
  {
    var r := Dispatch(startSoc, excess, demand, capacity, power);
    ChargeBounds(startSoc, excess, demand, capacity, power);
    DischargeBounds(startSoc, excess, demand, capacity, power);
    assert 0.0 <= r.startSoc + r.chargeFromSolar - r.discharge <= capacity;
  }

  /** With a nonnegative capacity the end state lies in [0, capacity], whatever the start. */
  lemma EndSocWithinCapacity(startSoc: real, excess: real, demand: real, capacity: real, power: real)
    requires capacity >= 0.0
    ensures 0.0 <= Dispatch(startSoc, excess, demand, capacity, power).endSoc <= capacity
  {
  }

  /** The state of charge before interval i of a year: 0 at the start, then the previous end state. */
  function SocBefore(excess: seq<real>, demand: seq<real>, capacity: real, power: real, i: nat): real
    requires i <= |excess| && i <= |demand|
  {
    if i == 0 then 0.0
    else Dispatch(SocBefore(excess, demand, capacity, power, i - 1), excess[i - 1], demand[i - 1], capacity, power).endSoc
  }

  /** A year of dispatch over the intervals both inputs cover. */
  function YearIntervals(excess: seq<real>, demand: seq<real>, capacity: real, power: real): (r: seq<BatteryInterval>)
    ensures |r| == MinNat(|excess|, |demand|)
  {
    var n := MinNat(|excess|, |demand|);
    seq(n, i requires 0 <= i < n =>
      Dispatch(SocBefore(excess, demand, capacity, power, i), excess[i], demand[i], capacity, power))
  }

  /** The dispatch recurrence, stated over a whole year of intervals. */
  ghost predicate Chained(r: seq<BatteryInterval>, excess: seq<real>, demand: seq<real>, capacity: real, power: real)
    requires |r| <= |excess| && |r| <= |demand|
  {
    && (|r| > 0 ==> r[0].startSoc == 0.0)
    && (forall i :: 0 < i < |r| ==> r[i].startSoc == r[i - 1].endSoc)
    && (forall i :: 0 <= i < |r| ==> r[i] == Dispatch(r[i].startSoc, excess[i], demand[i], capacity, power))
  }

  /**
   * A computed year satisfies the recurrence: the battery starts empty,
   * each interval starts where the previous one ended, and each interval is
   * dispatched from its start.
   */
  lemma YearIntervalsChained(excess: seq<real>, demand: seq<real>, capacity: real, power: real)
    ensures Chained(YearIntervals(excess, demand, capacity, power), excess, demand, capacity, power)
  {
    var r := YearIntervals(excess, demand, capacity, power);
    forall i | 0 < i < |r| ensures r[i].startSoc == r[i - 1].endSoc {
      assert r[i].startSoc == SocBefore(excess, demand, capacity, power, i);
    }
  }

  /** The recurrence has exactly one solution of each length: the year the dispatch computes. */
  lemma {:induction false} ChainedUnique(r: seq<BatteryInterval>, excess: seq<real>, demand: seq<real>, capacity: real, power: real)
    requires |r| == MinNat(|excess|, |demand|)
    requires Chained(r, excess, demand, capacity, power)
    ensures r == YearIntervals(excess, demand, capacity, power)
  {
    var s := YearIntervals(excess, demand, capacity, power);
    YearIntervalsChained(excess, demand, capacity, power);
    forall i | 0 <= i < |r| ensures r[i].startSoc == s[i].startSoc {
      StartsAgree(r, s, excess, demand, capacity, power, i);
    }
  }

  lemma {:induction false} StartsAgree(r: seq<BatteryInterval>, s: seq<BatteryInterval>, excess: seq<real>,
                                       demand: seq<real>, capacity: real, power: real, i: nat)
    requires |r| == |s| <= |excess| && |s| <= |demand| && i < |r|
    requires Chained(r, excess, demand, capacity, power) && Chained(s, excess, demand, capacity, power)
    ensures r[i].startSoc == s[i].startSoc
  {
    if i > 0 {
      StartsAgree(r, s, excess, demand, capacity, power, i - 1);
      assert r[i - 1] == s[i - 1];
    }
  }

  /** With a nonnegative capacity every interval of a year conserves energy and stays within [0, capacity]. */
  lemma {:induction false} YearConserves(excess: seq<real>, demand: seq<real>, capacity: real, power: real, i: nat)
    requires capacity >= 0.0 && i < MinNat(|excess|, |demand|)
    ensures var r := YearIntervals(excess, demand, capacity, power)[i];
      && 0.0 <= r.startSoc <= capacity
      && 0.0 <= r.endSoc <= capacity
      && r.endSoc == r.startSoc + r.chargeFromSolar + r.chargeFromGrid - r.discharge
  {
    var r := YearIntervals(excess, demand, capacity, power);
    YearIntervalsChained(excess, demand, capacity, power);
    if i > 0 {
      YearConserves(excess, demand, capacity, power, i - 1);
    }
    DispatchConserves(r[i].startSoc, excess[i], demand[i], capacity, power);
  }

  /** The dispatch of every year: at most `ProjectLife` years, as many as both inputs cover. */
  function BatteryYears(excess: Years, demand: Years, capacity: real, power: real): (r: seq<seq<BatteryInterval>>)
    ensures |r| == MinNat(MinNat(|excess|, |demand|), SolarForecast.ProjectLife)
    ensures forall y :: 0 <= y < |r| ==> r[y] == YearIntervals(excess[y], demand[y], capacity, power)
  {
    var n := MinNat(MinNat(|excess|, |demand|), SolarForecast.ProjectLife);
    seq(n, y requires 0 <= y < n => YearIntervals(excess[y], demand[y], capacity, power))
  }

  /** The five arrays written back, each a years-by-intervals array. */
  datatype BatteryForecast = BatteryForecast(
    startSoc: Years, chargeFromSolar: Years, chargeFromGrid: Years, discharge: Years, endSoc: Years)

  datatype Figure = StartSoc | ChargeFromSolar | ChargeFromGrid | Discharge | EndSoc

  function Get(iv: BatteryInterval, f: Figure): real
  {
    match f
    case StartSoc => iv.startSoc
    case ChargeFromSolar => iv.chargeFromSolar
    case ChargeFromGrid => iv.chargeFromGrid
    case Discharge => iv.discharge
    case EndSoc => iv.endSoc
  }

  /** One figure of every interval of a year. */
  function YearFigure(ivs: seq<BatteryInterval>, f: Figure): (r: seq<real>)
    ensures |r| == |ivs| && forall i :: 0 <= i < |ivs| ==> r[i] == Get(ivs[i], f)
  {
    seq(|ivs|, i requires 0 <= i < |ivs| => Get(ivs[i], f))
  }

  /** One figure of every interval of every year, as an array of years. */
  function Figures(years: seq<seq<BatteryInterval>>, f: Figure): (r: Years)
    ensures |r| == |years| && forall y :: 0 <= y < |years| ==> r[y] == YearFigure(years[y], f)
  {
    seq(|years|, y requires 0 <= y < |years| => YearFigure(years[y], f))
  }

  /** What the dispatch writes for the given inputs. */
  function Forecast(excess: Years, demand: Years, capacity: real, power: real): BatteryForecast
  {
    var years := BatteryYears(excess, demand, capacity, power);
    BatteryForecast(Figures(years, StartSoc), Figures(years, ChargeFromSolar), Figures(years, ChargeFromGrid),
                    Figures(years, Discharge), Figures(years, EndSoc))
  }

  /** All five arrays share one shape: the years both inputs cover (at most `ProjectLife`), each as long as both its inputs. */
  lemma ForecastShape(excess: Years, demand: Years, capacity: real, power: real, y: nat)
    requires y < MinNat(MinNat(|excess|, |demand|), SolarForecast.ProjectLife)
    ensures var out := Forecast(excess, demand, capacity, power);
      && |out.startSoc| == |out.chargeFromSolar| == |out.chargeFromGrid| == |out.discharge| == |out.endSoc|
         == MinNat(MinNat(|excess|, |demand|), SolarForecast.ProjectLife)
      && |out.startSoc[y]| == |out.chargeFromSolar[y]| == |out.chargeFromGrid[y]| == |out.discharge[y]|
         == |out.endSoc[y]| == MinNat(|excess[y]|, |demand[y]|)
  {
  }

  /** The five per-interval arrays of a year, read back as intervals. */
  ghost function Zip(startSoc: seq<real>, chargeSolar: seq<real>, chargeGrid: seq<real>,
                     discharge: seq<real>, endSoc: seq<real>): (r: seq<BatteryInterval>)
    requires |startSoc| == |chargeSolar| == |chargeGrid| == |discharge| == |endSoc|
    ensures |r| == |startSoc|
  {
    seq(|startSoc|, i requires 0 <= i < |startSoc| =>
      BatteryInterval(startSoc[i], chargeSolar[i], chargeGrid[i], discharge[i], endSoc[i]))
  }

  /**
   * The inner loop for one year: five arrays pushed interval by interval,
   * each interval starting from the previous interval's end state.
   */
  method SimulateYear(excess: seq<real>, demand: seq<real>, capacity: real, power: real)
    returns (startSoc: seq<real>, chargeSolar: seq<real>, chargeGrid: seq<real>, discharge: seq<real>, endSoc: seq<real>)
    ensures var ivs := YearIntervals(excess, demand, capacity, power);
      && startSoc == YearFigure(ivs, StartSoc) && chargeSolar == YearFigure(ivs, ChargeFromSolar)
      && chargeGrid == YearFigure(ivs, ChargeFromGrid) && discharge == YearFigure(ivs, Discharge)
      && endSoc == YearFigure(ivs, EndSoc)
  {
    var intervals := MinNat(|excess|, |demand|);
    startSoc, chargeSolar, chargeGrid, discharge, endSoc := [], [], [], [], [];
    var i := 0;
    while i < intervals
      invariant 0 <= i <= intervals
      invariant |startSoc| == |chargeSolar| == |chargeGrid| == |discharge| == |endSoc| == i
      invariant i > 0 ==> startSoc[0] == 0.0
      invariant forall k {:trigger startSoc[k]} :: 0 < k < i ==> startSoc[k] == endSoc[k - 1]
      invariant forall k {:trigger startSoc[k]} :: 0 <= k < i ==>
        BatteryInterval(startSoc[k], chargeSolar[k], chargeGrid[k], discharge[k], endSoc[k])
        == Dispatch(startSoc[k], excess[k], demand[k], capacity, power)
    {
      var start := if i == 0 then 0.0 else endSoc[i - 1];
      var iv := Dispatch(start, excess[i], demand[i], capacity, power);
      startSoc := startSoc + [iv.startSoc];
      chargeSolar := chargeSolar + [iv.chargeFromSolar];
      chargeGrid := chargeGrid + [iv.chargeFromGrid];
      discharge := discharge + [iv.discharge];
      endSoc := endSoc + [iv.endSoc];
      i := i + 1;
    }
    RecordedYear(startSoc, chargeSolar, chargeGrid, discharge, endSoc, excess, demand, capacity, power);
  }

  /** Five arrays that follow the recurrence over all intervals are the figures of the computed year. */
  lemma RecordedYear(startSoc: seq<real>, chargeSolar: seq<real>, chargeGrid: seq<real>, discharge: seq<real>,
                     endSoc: seq<real>, excess: seq<real>, demand: seq<real>, capacity: real, power: real)
    requires |startSoc| == |chargeSolar| == |chargeGrid| == |discharge| == |endSoc| == MinNat(|excess|, |demand|)
    requires |startSoc| > 0 ==> startSoc[0] == 0.0
    requires forall k :: 0 < k < |startSoc| ==> startSoc[k] == endSoc[k - 1]
    requires forall k :: 0 <= k < |startSoc| ==>
      BatteryInterval(startSoc[k], chargeSolar[k], chargeGrid[k], discharge[k], endSoc[k])
      == Dispatch(startSoc[k], excess[k], demand[k], capacity, power)
    ensures var ivs := YearIntervals(excess, demand, capacity, power);
      && startSoc == YearFigure(ivs, StartSoc) && chargeSolar == YearFigure(ivs, ChargeFromSolar)
      && chargeGrid == YearFigure(ivs, ChargeFromGrid) && discharge == YearFigure(ivs, Discharge)
      && endSoc == YearFigure(ivs, EndSoc)
  {
    var ivs := Zip(startSoc, chargeSolar, chargeGrid, discharge, endSoc);
    assert Chained(ivs, excess, demand, capacity, power);
    ChainedUnique(ivs, excess, demand, capacity, power);
  }

  /**
   * `runBatteryForecasting` without its I/O: None (nothing written) without
   * a storage row or either forecast array; otherwise the five arrays.
   */
  method RunBatteryForecasting(storage: Option<StorageRow>, excess: Option<Years>, postSolar: Option<Years>)
    returns (out: Option<BatteryForecast>)
    ensures out.None? <==> storage.None? || excess.None? || postSolar.None?
    ensures out.Some? ==>
      out.value == Forecast(excess.value, postSolar.value, storage.value.capacityKWh, storage.value.powerKW)
  {
    if storage.None? || excess.None? || postSolar.None? {
      return None;
    }
    var capacity := storage.value.capacityKWh;
    var power := storage.value.powerKW;
    var e := excess.value;
    var d := postSolar.value;
    ghost var spec := BatteryYears(e, d, capacity, power);
    var years := MinNat(MinNat(|e|, |d|), SolarForecast.ProjectLife);
    var startSoc: Years, chargeSolar: Years, chargeGrid: Years, discharge: Years, endSoc: Years := [], [], [], [], [];
    var year := 0;
    while year < years
      invariant 0 <= year <= years
      invariant |startSoc| == |chargeSolar| == |chargeGrid| == |discharge| == |endSoc| == year
      invariant forall y :: 0 <= y < year ==>
        && startSoc[y] == YearFigure(spec[y], StartSoc) && chargeSolar[y] == YearFigure(spec[y], ChargeFromSolar)
        && chargeGrid[y] == YearFigure(spec[y], ChargeFromGrid) && discharge[y] == YearFigure(spec[y], Discharge)
        && endSoc[y] == YearFigure(spec[y], EndSoc)
    {
      var ys, yc, yg, yd, ye := SimulateYear(e[year], d[year], capacity, power);
      startSoc := startSoc + [ys];
      chargeSolar := chargeSolar + [yc];
      chargeGrid := chargeGrid + [yg];
      discharge := discharge + [yd];
      endSoc := endSoc + [ye];
      year := year + 1;
    }
    return Some(BatteryForecast(startSoc, chargeSolar, chargeGrid, discharge, endSoc));
  }
}
