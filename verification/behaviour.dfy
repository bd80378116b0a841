/**
 * Charging behaviour inputs: the split of a profile's annual energy between
 * weekdays and weekend days under a weekday/weekend scale, the default
 * hourly and monthly patterns (flat, or shaped by a reference template),
 * the "calibrate" rescaling of user-edited patterns, and the pattern reset
 * that selecting a template performs.
 */
module Behaviour {
  import opened Series

  const WeekdayDays: nat := 5
  const WeekendDays: nat := 2

  /** Average and total daily consumption of weekdays and weekend days. */
  datatype Allocation = Allocation(
    averageWeekday: real, averageWeekend: real, totalWeekday: real, totalWeekend: real,
    weekdayDays: nat, weekendDays: nat)

  /** `1 + scale / 100`: how much more a weekend day consumes than a weekday. */
  function WeekendFactor(scale: real): real
  {
    1.0 + scale / 100.0
  }

  /** Weekday-equivalent days per year: weekdays plus weekend days weighted by the weekend factor. */
  function AllocationDivisor(scale: real): real
  {
    365.0 * WeekdayDays as real / 7.0 + WeekendFactor(scale) * (365.0 * WeekendDays as real / 7.0)
  }

  /** The divisor vanishes only at a scale of -350. */
  lemma AllocationDivisorZero(scale: real)
    ensures AllocationDivisor(scale) == 0.0 <==> scale == -350.0
  {
  }

  /** On the slider's range [-200, 200] the divisor is positive. */
  lemma SliderDivisorPositive(scale: real)
    requires -200.0 <= scale <= 200.0
    ensures AllocationDivisor(scale) > 0.0
  {
  }

  /**
   * `calculateWeekdayWeekendAllocation`: all zero for a non-positive annual
   * total; otherwise the weekday average is the total over the
   * weekday-equivalent days, and the weekend average that times the weekend
   * factor.
   */
  function WeekdayWeekendAllocation(total: real, scale: real): (r: Allocation)
    requires total <= 0.0 || scale != -350.0
    ensures r.weekdayDays == WeekdayDays && r.weekendDays == WeekendDays
    ensures total <= 0.0 ==> r == Allocation(0.0, 0.0, 0.0, 0.0, WeekdayDays, WeekendDays)
    ensures total > 0.0 ==> r.averageWeekend == r.averageWeekday * WeekendFactor(scale)
  {
    if total <= 0.0 then Allocation(0.0, 0.0, 0.0, 0.0, WeekdayDays, WeekendDays)
    else
      AllocationDivisorZero(scale);
      var averageWeekday := total / AllocationDivisor(scale);
      var averageWeekend := averageWeekday * WeekendFactor(scale);
      Allocation(averageWeekday, averageWeekend,
                 averageWeekday * WeekdayDays as real / 7.0 * 365.0,
                 averageWeekend * WeekendDays as real / 7.0 * 365.0,
                 WeekdayDays, WeekendDays)
  }

  /** For a positive total, the weekday and weekend totals add up to the annual total. */
  lemma AllocationSplitsTotal(total: real, scale: real)
    requires total > 0.0 && scale != -350.0
    ensures var a := WeekdayWeekendAllocation(total, scale);
      a.totalWeekday + a.totalWeekend == total
  {
    AllocationDivisorZero(scale);
    var a := WeekdayWeekendAllocation(total, scale);
    var k := WeekendFactor(scale);
    var avg := a.averageWeekday;
    assert avg * AllocationDivisor(scale) == total;
    assert a.totalWeekday == avg * (1825.0 / 7.0);
    assert a.totalWeekend == (avg * k) * (730.0 / 7.0);
    assert avg * AllocationDivisor(scale) == avg * (1825.0 / 7.0) + (avg * k) * (730.0 / 7.0);
  }

  /** A reference charging template: hourly weekday and weekend weights, monthly weights and a weekday weight. */
  datatype Template = Template(
    name: string, weekdayHourly: seq<real>, weekendHourly: seq<real>, monthly: seq<real>, weekdayWeight: real)

  /** `chargingProfiles.find(p => p.Profile === name)`: the first template of that name. */
  function FindTemplate(templates: seq<Template>, name: string): (r: Option<Template>)
    ensures r.None? <==> forall i :: 0 <= i < |templates| ==> templates[i].name != name
    ensures r.Some? ==> r.value in templates && r.value.name == name
    ensures r.Some? ==>
      exists k :: 0 <= k < |templates| && templates[k] == r.value && forall j :: 0 <= j < k ==> templates[j].name != name
  {
    if |templates| == 0 then None
    else if templates[0].name == name then Some(templates[0])
    else FindTemplate(templates[1..], name)
  }

  /** Each value's share of `total`, times the amount. */
  function Shares(values: seq<real>, total: real, amount: real): (r: seq<real>)
    requires total != 0.0
    ensures |r| == |values|
  {
    seq(|values|, i requires 0 <= i < |values| => (values[i] / total) * amount)
  }

  /** Shares of the values' own sum rescale every value by amount / sum and add up to the amount. */
  lemma SharesSum(values: seq<real>, amount: real)
    requires Sum(values) != 0.0
    ensures Shares(values, Sum(values), amount) == Scaled(values, amount / Sum(values))
    ensures Sum(Shares(values, Sum(values), amount)) == amount
  {
    var s := Sum(values);
    var r := Shares(values, s, amount);
    var c := amount / s;
    forall i | 0 <= i < |values| ensures r[i] == values[i] * c == Scaled(values, c)[i] {
      ShareOfAmount(values[i], s, amount);
    }
    assert r == Scaled(values, c);
    SumScaled(values, r, c);
    SharesCancel(s, amount);
  }

  /** A weight's share of a total, times an amount, is the weight times the amount per unit of total. */
  lemma ShareOfAmount(w: real, total: real, amount: real)
    requires total != 0.0
    ensures (w / total) * amount == w * (amount / total)
  {
  }

  lemma SharesCancel(total: real, amount: real)
    requires total != 0.0
    ensures total * (amount / total) == amount
  {
  }

  /** Each weight's share of the weight total times the amount, or all zeros when the total is not positive. */
  function Distribute(weights: seq<real>, amount: real): (r: seq<real>)
    ensures |r| == |weights|
  {
    var weightSum := Sum(weights);
    if weightSum > 0.0 then Shares(weights, weightSum, amount) else Fill(|weights|, 0.0)
  }

  /** With a positive weight total the shares add up to the amount; otherwise they are all 0. */
  lemma DistributeSum(weights: seq<real>, amount: real)
    ensures Sum(weights) > 0.0 ==> Sum(Distribute(weights, amount)) == amount
    ensures Sum(weights) <= 0.0 ==> Distribute(weights, amount) == Fill(|weights|, 0.0)
  {
    if Sum(weights) > 0.0 {
      SharesSum(weights, amount);
    }
  }

  lemma DivideBySelf(x: real)
    requires x != 0.0
    ensures x / x == 1.0
  {
  }

  /** The default option of the template picker. */
  const DefaultProfile: string := "default"

  /**
   * `calculateDefaultWeekdayData` / `calculateDefaultWeekendData`: 24 zeros
   * for a non-positive total, a flat day for the default profile, the
   * template's hourly weights distributed over the daily average otherwise
   * (zeros for an unknown template).
   */
  function DefaultDayData(total: real, dailyAverage: real, selected: string, templates: seq<Template>,
                          weekend: bool): (r: seq<real>)
  {
    if total <= 0.0 then Fill(24, 0.0)
    else if selected == DefaultProfile then Fill(24, dailyAverage / 24.0)
    else match FindTemplate(templates, selected)
      case None => Fill(24, 0.0)
      case Some(t) => Distribute(if weekend then t.weekendHourly else t.weekdayHourly, dailyAverage)
  }

  /** `calculateDefaultWeekdayData`. */
  function DefaultWeekdayData(total: real, scale: real, selected: string, templates: seq<Template>): seq<real>
    requires total <= 0.0 || scale != -350.0
  {
    DefaultDayData(total, WeekdayWeekendAllocation(total, scale).averageWeekday, selected, templates, false)
  }

  /** `calculateDefaultWeekendData`. */
  function DefaultWeekendData(total: real, scale: real, selected: string, templates: seq<Template>): seq<real>
    requires total <= 0.0 || scale != -350.0
  {
    DefaultDayData(total, WeekdayWeekendAllocation(total, scale).averageWeekend, selected, templates, true)
  }

  /** `calculateDefaultMonthlyData`: twelve equal months for the default profile, the template's monthly weights otherwise. */
  function DefaultMonthlyData(total: real, selected: string, templates: seq<Template>): seq<real>
  {
    if total <= 0.0 then Fill(12, 0.0)
    else if selected == DefaultProfile then Fill(12, total / 12.0)
    else match FindTemplate(templates, selected)
      case None => Fill(12, 0.0)
      case Some(t) => Distribute(t.monthly, total)
  }

  /**
   * A default day adds up to its daily average (flat, or from a template
   * whose weights have a positive total), and is 24 zeros for a
   * non-positive annual total or an unknown template.
   */
  lemma DefaultDaySum(total: real, dailyAverage: real, selected: string, templates: seq<Template>, weekend: bool)
    ensures total <= 0.0 ==> DefaultDayData(total, dailyAverage, selected, templates, weekend) == Fill(24, 0.0)
    ensures total > 0.0 && selected == DefaultProfile ==>
      |DefaultDayData(total, dailyAverage, selected, templates, weekend)| == 24 &&
      Sum(DefaultDayData(total, dailyAverage, selected, templates, weekend)) == dailyAverage
    ensures total > 0.0 && selected != DefaultProfile && FindTemplate(templates, selected).None? ==>
      DefaultDayData(total, dailyAverage, selected, templates, weekend) == Fill(24, 0.0)
    ensures total > 0.0 && selected != DefaultProfile && FindTemplate(templates, selected).Some? ==>
      var t := FindTemplate(templates, selected).value;
      var weights := if weekend then t.weekendHourly else t.weekdayHourly;
      Sum(weights) > 0.0 ==> Sum(DefaultDayData(total, dailyAverage, selected, templates, weekend)) == dailyAverage
  {
    SumFill(24, dailyAverage / 24.0);
    if FindTemplate(templates, selected).Some? {
      var t := FindTemplate(templates, selected).value;
      DistributeSum(if weekend then t.weekendHourly else t.weekdayHourly, dailyAverage);
    }
  }

  /** Default months add up to the annual total (flat, or from a template whose weights have a positive total). */
  lemma DefaultMonthlySum(total: real, selected: string, templates: seq<Template>)
    ensures total <= 0.0 ==> DefaultMonthlyData(total, selected, templates) == Fill(12, 0.0)
    ensures total > 0.0 && selected == DefaultProfile ==>
      |DefaultMonthlyData(total, selected, templates)| == 12 && Sum(DefaultMonthlyData(total, selected, templates)) == total
    ensures total > 0.0 && selected != DefaultProfile && FindTemplate(templates, selected).Some?
            && Sum(FindTemplate(templates, selected).value.monthly) > 0.0 ==>
      Sum(DefaultMonthlyData(total, selected, templates)) == total
  {
    SumFill(12, total / 12.0);
    if FindTemplate(templates, selected).Some? {
      DistributeSum(FindTemplate(templates, selected).value.monthly, total);
    }
  }

  /**
   * The calibrate step: unchanged for a non-positive annual total or values
   * summing to 0; otherwise each value's share of the sum times the amount.
   */
  function Calibrate(values: seq<real>, amount: real, total: real): (r: seq<real>)
    ensures |r| == |values|
  {
    var sumOfValues := Sum(values);
    if total <= 0.0 || sumOfValues == 0.0 then values
    else Shares(values, sumOfValues, amount)
  }

  /**
   * Calibration keeps the proportions of the values (each is rescaled by
   * amount / sum) and makes them add up to the amount; it does nothing
   * under either guard.
   */
  lemma CalibrateScales(values: seq<real>, amount: real, total: real)
    ensures total <= 0.0 || Sum(values) == 0.0 ==> Calibrate(values, amount, total) == values
    ensures total > 0.0 && Sum(values) != 0.0 ==>
      && Calibrate(values, amount, total) == Scaled(values, amount / Sum(values))
      && Sum(Calibrate(values, amount, total)) == amount
  {
    if total > 0.0 && Sum(values) != 0.0 {
      SharesSum(values, amount);
    }
  }

  /** `calibrateWeekday`: the weekday pattern rescaled to the weekday average. */
  function CalibrateWeekday(weekday: seq<real>, total: real, scale: real): seq<real>
    requires total <= 0.0 || scale != -350.0
  {
    Calibrate(weekday, WeekdayWeekendAllocation(total, scale).averageWeekday, total)
  }

  /** `calibrateWeekend`: the weekend pattern rescaled to the weekend average. */
  function CalibrateWeekend(weekend: seq<real>, total: real, scale: real): seq<real>
    requires total <= 0.0 || scale != -350.0
  {
    Calibrate(weekend, WeekdayWeekendAllocation(total, scale).averageWeekend, total)
  }

  /** `calibrateMonthly`: the monthly pattern rescaled to the annual total. */
  function CalibrateMonthly(monthly: seq<real>, total: real): seq<real>
  {
    Calibrate(monthly, total, total)
  }

  /** Calibrating twice is calibrating once: a calibrated pattern already sums to its amount. */
  lemma CalibrateIdempotent(values: seq<real>, amount: real, total: real)
    requires amount != 0.0
    ensures Calibrate(Calibrate(values, amount, total), amount, total) == Calibrate(values, amount, total)
  {
    CalibrateScales(values, amount, total);
    var once := Calibrate(values, amount, total);
    CalibrateScales(once, amount, total);
    if total > 0.0 && Sum(values) != 0.0 {
      assert Sum(once) == amount;
      var unit := amount / amount;
      DivideBySelf(amount);
      forall i | 0 <= i < |once| ensures Scaled(once, unit)[i] == once[i] {
      }
    }
  }

  /** The scale a template selection sets: 0 for the default or an unknown name, else the template's weekday weight. */
  function SelectScale(name: string, templates: seq<Template>): (r: real)
    ensures name == DefaultProfile || FindTemplate(templates, name).None? ==> r == 0.0
    ensures name != DefaultProfile && FindTemplate(templates, name).Some? ==>
      r == FindTemplate(templates, name).value.weekdayWeight
  {
    if name == DefaultProfile then 0.0
    else match FindTemplate(templates, name)
      case None => 0.0
      case Some(t) => t.weekdayWeight
  }

  /** The patterns `handleProfileChange` installs, with the new scale. */
  datatype BehaviourPatterns = BehaviourPatterns(scale: real, weekday: seq<real>, weekend: seq<real>, monthly: seq<real>)

  /** `handleProfileChange`: the new scale and the patterns recomputed for it. */
  function HandleProfileChange(total: real, name: string, templates: seq<Template>): BehaviourPatterns
    requires total <= 0.0 || SelectScale(name, templates) != -350.0
  {
    var newScale := SelectScale(name, templates);
    var a := WeekdayWeekendAllocation(total, newScale);
    if total <= 0.0 then BehaviourPatterns(newScale, Fill(24, 0.0), Fill(24, 0.0), Fill(12, 0.0))
    else if name == DefaultProfile then
      BehaviourPatterns(newScale, Fill(24, a.averageWeekday / 24.0), Fill(24, a.averageWeekend / 24.0),
                        Fill(12, total / 12.0))
    else match FindTemplate(templates, name)
      case None => BehaviourPatterns(newScale, Fill(24, 0.0), Fill(24, 0.0), Fill(12, 0.0))
      case Some(t) =>
        BehaviourPatterns(newScale, Distribute(t.weekdayHourly, a.averageWeekday),
                          Distribute(t.weekendHourly, a.averageWeekend), Distribute(t.monthly, total))
  }

  /**
   * Selecting a template installs exactly the default patterns for the new
   * selection and scale: the two code paths agree.
   */
  lemma ProfileChangeInstallsDefaults(total: real, name: string, templates: seq<Template>)
    requires total <= 0.0 || SelectScale(name, templates) != -350.0
    ensures var p := HandleProfileChange(total, name, templates);
      && p.scale == SelectScale(name, templates)
      && p.weekday == DefaultWeekdayData(total, p.scale, name, templates)
      && p.weekend == DefaultWeekendData(total, p.scale, name, templates)
      && p.monthly == DefaultMonthlyData(total, name, templates)
  {
  }
}
