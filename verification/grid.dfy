/**
 * The grid stages: demand left after the battery, grid import capped by the
 * connection's import limit, solar excess left after battery charging, grid
 * export capped by the export limit, and the demand the grid cannot cover.
 * Export is taken from the solar excess before battery charging.
 */
module Grid {
  import opened Series
  import SolarForecast
  import Battery

  /** The grid_data columns the stages read. */
  datatype GridRow = GridRow(maxImportKW: real, maxExportKW: real)

  /** One interval of a difference of two arrays. */
  function Subtract(a: real, b: real): real
  {
    a - b
  }

  /** `Math.min(max_import_kw, demand)` as a function of the demand. */
  function ImportCap(maxImport: real): real -> real
  {
    d => Min(maxImport, d)
  }

  /** `Math.min(excess, max_export_kw)` as a function of the excess. */
  function ExportCap(maxExport: real): real -> real
  {
    e => Min(e, maxExport)
  }

  /** `energy_demand_post_solar_battery`: demand after solar less battery discharge. */
  function PostSolarBattery(postSolar: Years, discharge: Years): Years
  {
    Pairwise(postSolar, discharge, Subtract)
  }

  /** `grid_import`: demand after the battery, capped by the import limit. */
  function GridImport(postSolarBattery: Years, maxImport: real): Years
  {
    MapYears(postSolarBattery, ImportCap(maxImport))
  }

  /** `generated_solar_energy_excess_post_consumption_battery`: excess less battery charging. */
  function ExcessPostBattery(excess: Years, chargeFromSolar: Years): Years
  {
    Pairwise(excess, chargeFromSolar, Subtract)
  }

  /** `grid_export`: the excess before battery charging, capped by the export limit. */
  function GridExport(excess: Years, maxExport: real): Years
  {
    MapYears(excess, ExportCap(maxExport))
  }

  /** `energy_demand_post_solar_battery_grid`: demand after the battery less grid import. */
  function ResidualDemand(postSolarBattery: Years, gridImport: Years): Years
  {
    Pairwise(postSolarBattery, gridImport, Subtract)
  }

  /** Demand after the battery is never negative where the discharge does not exceed the demand. */
  lemma PostSolarBatteryNonNegative(postSolar: Years, discharge: Years, y: nat, i: nat)
    requires y < |PostSolarBattery(postSolar, discharge)| && i < |PostSolarBattery(postSolar, discharge)[y]|
    requires discharge[y][i] <= postSolar[y][i]
    ensures PostSolarBattery(postSolar, discharge)[y][i] == postSolar[y][i] - discharge[y][i] >= 0.0
  {
  }

  /**
   * Through the pipeline: demand after solar is never negative, and the
   * battery never discharges more than it, so demand after the battery is
   * never negative either.
   */
  lemma PipelinePostSolarBatteryNonNegative(solar: Years, demand: Years, storage: Battery.StorageRow, y: nat, i: nat)
    requires var consumed := SolarForecast.Consumed(solar, demand);
      var postSolar := SolarForecast.PostSolar(demand, consumed);
      var forecast := Battery.Forecast(SolarForecast.Excess(solar, consumed), postSolar,
                                       storage.capacityKWh, storage.powerKW);
      y < |PostSolarBattery(postSolar, forecast.discharge)| && i < |PostSolarBattery(postSolar, forecast.discharge)[y]|
    ensures var consumed := SolarForecast.Consumed(solar, demand);
      var postSolar := SolarForecast.PostSolar(demand, consumed);
      var forecast := Battery.Forecast(SolarForecast.Excess(solar, consumed), postSolar,
                                       storage.capacityKWh, storage.powerKW);
      PostSolarBattery(postSolar, forecast.discharge)[y][i] >= 0.0
  {
    var consumed := SolarForecast.Consumed(solar, demand);
    var excess := SolarForecast.Excess(solar, consumed);
    var postSolar := SolarForecast.PostSolar(demand, consumed);
    var c, p := storage.capacityKWh, storage.powerKW;
    var forecast := Battery.Forecast(excess, postSolar, c, p);
    var ivs := Battery.YearIntervals(excess[y], postSolar[y], c, p);
    assert forecast.discharge[y][i] == ivs[i].discharge;
    SolarForecast.DemandSplit(solar, demand, y, i);
    Battery.YearIntervalsChained(excess[y], postSolar[y], c, p);
    Battery.DischargeBounds(ivs[i].startSoc, excess[y][i], postSolar[y][i], c, p);
  }

  /**
   * Through the pipeline: the solar excess is never negative, and the
   * battery never charges more than it, so the excess after the battery is
   * never negative either.
   */
  lemma PipelineExcessPostBatteryNonNegative(solar: Years, demand: Years, storage: Battery.StorageRow, y: nat, i: nat)
    requires var consumed := SolarForecast.Consumed(solar, demand);
      var excess := SolarForecast.Excess(solar, consumed);
      var forecast := Battery.Forecast(excess, SolarForecast.PostSolar(demand, consumed),
                                       storage.capacityKWh, storage.powerKW);
      y < |ExcessPostBattery(excess, forecast.chargeFromSolar)| && i < |ExcessPostBattery(excess, forecast.chargeFromSolar)[y]|
    ensures var consumed := SolarForecast.Consumed(solar, demand);
      var excess := SolarForecast.Excess(solar, consumed);
      var forecast := Battery.Forecast(excess, SolarForecast.PostSolar(demand, consumed),
                                       storage.capacityKWh, storage.powerKW);
      ExcessPostBattery(excess, forecast.chargeFromSolar)[y][i] >= 0.0
  {
    var consumed := SolarForecast.Consumed(solar, demand);
    var excess := SolarForecast.Excess(solar, consumed);
    var postSolar := SolarForecast.PostSolar(demand, consumed);
    var c, p := storage.capacityKWh, storage.powerKW;
    var forecast := Battery.Forecast(excess, postSolar, c, p);
    var ivs := Battery.YearIntervals(excess[y], postSolar[y], c, p);
    assert forecast.chargeFromSolar[y][i] == ivs[i].chargeFromSolar;
    SolarForecast.SolarSplit(solar, demand, y, i);
    SolarForecast.ConsumedBounds(solar, demand, y, i);
    Battery.YearIntervalsChained(excess[y], postSolar[y], c, p);
    Battery.ChargeBounds(ivs[i].startSoc, excess[y][i], postSolar[y][i], c, p);
  }

  /** Import never exceeds the import limit nor the demand, and equals one of them. */
  lemma ImportWithinLimit(postSolarBattery: Years, maxImport: real, y: nat, i: nat)
    requires y < |postSolarBattery| && i < |postSolarBattery[y]|
    ensures |GridImport(postSolarBattery, maxImport)| == |postSolarBattery|
    ensures |GridImport(postSolarBattery, maxImport)[y]| == |postSolarBattery[y]|
    ensures GridImport(postSolarBattery, maxImport)[y][i] <= maxImport
    ensures GridImport(postSolarBattery, maxImport)[y][i] <= postSolarBattery[y][i]
    ensures GridImport(postSolarBattery, maxImport)[y][i] in {maxImport, postSolarBattery[y][i]}
  {
    assert GridImport(postSolarBattery, maxImport)[y][i] == Min(maxImport, postSolarBattery[y][i]);
  }

  /** Export never exceeds the export limit nor the excess, and equals one of them. */
  lemma ExportWithinLimit(excess: Years, maxExport: real, y: nat, i: nat)
    requires y < |excess| && i < |excess[y]|
    ensures |GridExport(excess, maxExport)| == |excess|
    ensures |GridExport(excess, maxExport)[y]| == |excess[y]|
    ensures GridExport(excess, maxExport)[y][i] <= maxExport
    ensures GridExport(excess, maxExport)[y][i] <= excess[y][i]
    ensures GridExport(excess, maxExport)[y][i] in {maxExport, excess[y][i]}
  {
    assert GridExport(excess, maxExport)[y][i] == Min(excess[y][i], maxExport);
  }

  /**
   * Export ignores battery charging: in an interval where the export limit
   * does not bind and the battery charges from solar, export plus charge
   * exceed the solar excess there was.
   */
  lemma ExportCountsChargedSolarTwice(excess: Years, chargeFromSolar: Years, maxExport: real, y: nat, i: nat)
    requires y < |excess| && i < |excess[y]| && y < |chargeFromSolar| && i < |chargeFromSolar[y]|
    requires excess[y][i] <= maxExport && chargeFromSolar[y][i] > 0.0
    ensures GridExport(excess, maxExport)[y][i] + chargeFromSolar[y][i] > excess[y][i]
  {
    assert GridExport(excess, maxExport)[y][i] == Min(excess[y][i], maxExport);
  }

  /** Taking demand after the battery less its capped import leaves what exceeds the limit, never negative. */
  lemma ResidualBeyondLimit(postSolarBattery: Years, maxImport: real, y: nat, i: nat)
    requires y < |postSolarBattery| && i < |postSolarBattery[y]|
    ensures var residual := ResidualDemand(postSolarBattery, GridImport(postSolarBattery, maxImport));
      && |residual| == |postSolarBattery| && |residual[y]| == |postSolarBattery[y]|
      && residual[y][i] == Max(postSolarBattery[y][i] - maxImport, 0.0)
      && residual[y][i] >= 0.0
  {
    var imp := GridImport(postSolarBattery, maxImport);
    assert imp[y][i] == Min(maxImport, postSolarBattery[y][i]);
  }

  /** `runEnergyDemandPostSolarBattery` without its I/O: None when either array is missing. */
  method RunEnergyDemandPostSolarBattery(postSolar: Option<Years>, discharge: Option<Years>) returns (out: Option<Years>)
    ensures out.None? <==> postSolar.None? || discharge.None?
    ensures out.Some? ==> out.value == PostSolarBattery(postSolar.value, discharge.value)
  {
    if postSolar.None? || discharge.None? {
      return None;
    }
    var r := CombineYears(postSolar.value, discharge.value, Subtract);
    return Some(r);
  }

  /** `runGridImport` without its I/O: None without a grid row or the demand array. */
  method RunGridImport(grid: Option<GridRow>, postSolarBattery: Option<Years>) returns (out: Option<Years>)
    ensures out.None? <==> grid.None? || postSolarBattery.None?
    ensures out.Some? ==> out.value == GridImport(postSolarBattery.value, grid.value.maxImportKW)
  {
    if grid.None? || postSolarBattery.None? {
      return None;
    }
    var r := MapEachYear(postSolarBattery.value, ImportCap(grid.value.maxImportKW));
    return Some(r);
  }

  /** `runGeneratedSolarEnergyExcessPostConsumptionBattery` without its I/O. */
  method RunExcessPostBattery(excess: Option<Years>, chargeFromSolar: Option<Years>) returns (out: Option<Years>)
    ensures out.None? <==> excess.None? || chargeFromSolar.None?
    ensures out.Some? ==> out.value == ExcessPostBattery(excess.value, chargeFromSolar.value)
  {
    if excess.None? || chargeFromSolar.None? {
      return None;
    }
    var r := CombineYears(excess.value, chargeFromSolar.value, Subtract);
    return Some(r);
  }

  /** `runGridExport` without its I/O: None without a grid row or the (pre-battery) excess array. */
  method RunGridExport(grid: Option<GridRow>, excess: Option<Years>) returns (out: Option<Years>)
    ensures out.None? <==> grid.None? || excess.None?
    ensures out.Some? ==> out.value == GridExport(excess.value, grid.value.maxExportKW)
  {
    if grid.None? || excess.None? {
      return None;
    }
    var r := MapEachYear(excess.value, ExportCap(grid.value.maxExportKW));
    return Some(r);
  }

  /** `runEnergyDemandPostSolarBatteryGrid` without its I/O. */
  method RunEnergyDemandPostSolarBatteryGrid(postSolarBattery: Option<Years>, gridImport: Option<Years>)
    returns (out: Option<Years>)
    ensures out.None? <==> postSolarBattery.None? || gridImport.None?
    ensures out.Some? ==> out.value == ResidualDemand(postSolarBattery.value, gridImport.value)
  {
    if postSolarBattery.None? || gridImport.None? {
      return None;
    }
    var r := CombineYears(postSolarBattery.value, gridImport.value, Subtract);
    return Some(r);
  }
}
