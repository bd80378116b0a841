/**
 * First-year energy flows: each of the six flows shown in the analysis is
 * the total over the first forecast year of one interval array.
 */
module Flows {
  import opened Series
  import Battery

  /** The six first-year arrays the flows are taken from. */
  datatype EnergyFlowInputs = EnergyFlowInputs(
    solarConsumed: seq<real>, chargeFromSolar: seq<real>, gridExport: seq<real>,
    discharge: seq<real>, chargeFromGrid: seq<real>, gridImport: seq<real>)

  /** The six flow totals. */
  datatype EnergyFlows = EnergyFlows(
    solarToChargers: real, solarToBattery: real, solarToGrid: real,
    batteryToChargers: real, gridToBattery: real, gridToChargers: real)

  /** `calculateEnergyFlows`: every flow is the total of its array. */
  function CalculateEnergyFlows(inputs: EnergyFlowInputs): EnergyFlows
  {
    EnergyFlows(Sum(inputs.solarConsumed), Sum(inputs.chargeFromSolar), Sum(inputs.gridExport),
                Sum(inputs.discharge), Sum(inputs.chargeFromGrid), Sum(inputs.gridImport))
  }

  predicate NonNegative(s: seq<real>)
  {
    forall i :: 0 <= i < |s| ==> s[i] >= 0.0
  }

  /** Nonnegative arrays give nonnegative flows. */
  lemma FlowsNonNegative(inputs: EnergyFlowInputs)
    requires NonNegative(inputs.solarConsumed) && NonNegative(inputs.chargeFromSolar)
    requires NonNegative(inputs.gridExport) && NonNegative(inputs.discharge)
    requires NonNegative(inputs.chargeFromGrid) && NonNegative(inputs.gridImport)
    ensures var f := CalculateEnergyFlows(inputs);
      && f.solarToChargers >= 0.0 && f.solarToBattery >= 0.0 && f.solarToGrid >= 0.0
      && f.batteryToChargers >= 0.0 && f.gridToBattery >= 0.0 && f.gridToChargers >= 0.0
  {
    SumNonNegative(inputs.solarConsumed);
    SumNonNegative(inputs.chargeFromSolar);
    SumNonNegative(inputs.gridExport);
    SumNonNegative(inputs.discharge);
    SumNonNegative(inputs.chargeFromGrid);
    SumNonNegative(inputs.gridImport);
  }

  /** The energy_forecasts columns the flows read; a null column is None. */
  datatype FlowColumns = FlowColumns(
    solarConsumed: Option<Years>, chargeFromSolar: Option<Years>, gridExport: Option<Years>,
    discharge: Option<Years>, chargeFromGrid: Option<Years>, gridImport: Option<Years>)

  /** `column?.[0] || []`: a null column reads as no intervals, a present one as its first year. */
  function FirstYear(column: Option<Years>): (r: seq<real>)
    ensures column.None? ==> r == []
    ensures column.Some? ==> r == Series.FirstYear(column.value)
  {
    if column.None? then [] else Series.FirstYear(column.value)
  }

  function FirstYearInputs(columns: FlowColumns): EnergyFlowInputs
  {
    EnergyFlowInputs(FirstYear(columns.solarConsumed), FirstYear(columns.chargeFromSolar),
                     FirstYear(columns.gridExport), FirstYear(columns.discharge),
                     FirstYear(columns.chargeFromGrid), FirstYear(columns.gridImport))
  }

  /**
   * `runEnergyFlowAnalysis` without its I/O: None (nothing written) without
   * a forecast row; otherwise the flows of the first year, which are the
   * values written back.
   */
  function RunEnergyFlowAnalysis(forecast: Option<FlowColumns>): (r: Option<EnergyFlows>)
    ensures r.None? <==> forecast.None?
  {
    if forecast.None? then None else Some(CalculateEnergyFlows(FirstYearInputs(forecast.value)))
  }

  /**
   * A missing column, or one without years, reads as an empty array: its
   * flow is 0, whichever of the six it is, and the other five are unaffected.
   */
  lemma MissingColumnZeroFlow(columns: FlowColumns)
    ensures var f := RunEnergyFlowAnalysis(Some(columns)).value;
      && (columns.solarConsumed.None? ==> f.solarToChargers == 0.0)
      && (columns.chargeFromSolar.None? ==> f.solarToBattery == 0.0)
      && (columns.gridExport.None? ==> f.solarToGrid == 0.0)
      && (columns.discharge.None? ==> f.batteryToChargers == 0.0)
      && (columns.chargeFromGrid.None? ==> f.gridToBattery == 0.0)
      && (columns.gridImport.None? ==> f.gridToChargers == 0.0)
  {
  }

  /** Only the first year counts: two forecasts with the same first years have the same flows. */
  lemma OnlyFirstYearCounts(a: FlowColumns, b: FlowColumns)
    requires FirstYearInputs(a) == FirstYearInputs(b)
    ensures RunEnergyFlowAnalysis(Some(a)) == RunEnergyFlowAnalysis(Some(b))
  {
  }

  /** The dispatch never charges from the grid, so the grid-to-battery flow of its output is 0. */
  lemma NoGridToBattery(excess: Years, postSolar: Years, storage: Battery.StorageRow, columns: FlowColumns)
    requires columns.chargeFromGrid
      == Some(Battery.Forecast(excess, postSolar, storage.capacityKWh, storage.powerKW).chargeFromGrid)
    ensures RunEnergyFlowAnalysis(Some(columns)).value.gridToBattery == 0.0
  {
    var years := Battery.BatteryYears(excess, postSolar, storage.capacityKWh, storage.powerKW);
    var grid := FirstYear(columns.chargeFromGrid);
    if |years| > 0 {
      forall i | 0 <= i < |grid| ensures grid[i] == 0.0 {
        assert grid[i] == Battery.Get(years[0][i], Battery.ChargeFromGrid);
        Battery.YearIntervalsChained(excess[0], postSolar[0], storage.capacityKWh, storage.powerKW);
      }
    }
    SumZeros(grid);
  }
}
