/**
 * The grid connection form: both limits required, then a positive import
 * limit and a positive export limit, checked in that order. The sign guards
 * do not test for NaN.
 */
module GridForm {
  import opened Series
  import opened Forms
  import Grid

  datatype GridFields = GridFields(maxImportKW: NumberField, maxExportKW: NumberField)

  /** The rejections, in the order the guards run. */
  datatype GridError = MissingRequiredField | ImportNotPositive | ExportNotPositive

  /** The grid_data columns a submission writes; None is a NaN number. */
  datatype GridPayload = GridPayload(maxImportKW: Option<real>, maxExportKW: Option<real>)

  /** `handleSubmit`'s checks and the payload it builds. */
  function ValidateGrid(f: GridFields): (r: Result<GridPayload, GridError>)
    ensures r == Failure(MissingRequiredField) <==> Missing(f.maxImportKW.text) || Missing(f.maxExportKW.text)
    ensures r == Failure(ImportNotPositive) <==>
      !Missing(f.maxImportKW.text) && !Missing(f.maxExportKW.text) && NonPositiveNumber(f.maxImportKW.parsed)
    ensures r == Failure(ExportNotPositive) <==>
      !Missing(f.maxImportKW.text) && !Missing(f.maxExportKW.text) && !NonPositiveNumber(f.maxImportKW.parsed)
      && NonPositiveNumber(f.maxExportKW.parsed)
    ensures r.Success? ==>
      && r.value == GridPayload(f.maxImportKW.parsed, f.maxExportKW.parsed)
      && (r.value.maxImportKW.Some? ==> r.value.maxImportKW.value > 0.0)
      && (r.value.maxExportKW.Some? ==> r.value.maxExportKW.value > 0.0)
  {
    if Missing(f.maxImportKW.text) || Missing(f.maxExportKW.text) then Failure(MissingRequiredField)
    else if NonPositiveNumber(f.maxImportKW.parsed) then Failure(ImportNotPositive)
    else if NonPositiveNumber(f.maxExportKW.parsed) then Failure(ExportNotPositive)
    else Success(GridPayload(f.maxImportKW.parsed, f.maxExportKW.parsed))
  }

  /** An unparseable import limit passes the sign check. */
  lemma NaNLimitAccepted()
    ensures ValidateGrid(GridFields(NumberField("abc", None), NumberField("50", Some(50.0)))).Success?
  {
  }

  /**
   * With an accepted numeric import limit, the grid imports something in
   * every interval with positive remaining demand, and the demand left
   * after import is strictly smaller there.
   */
  lemma AcceptedImportLimitServes(f: GridFields, postSolarBattery: Years, y: nat, i: nat)
    requires ValidateGrid(f).Success? && f.maxImportKW.parsed.Some?
    requires y < |postSolarBattery| && i < |postSolarBattery[y]| && postSolarBattery[y][i] > 0.0
    ensures var limit := f.maxImportKW.parsed.value;
      && Grid.GridImport(postSolarBattery, limit)[y][i] > 0.0
      && Grid.ResidualDemand(postSolarBattery, Grid.GridImport(postSolarBattery, limit))[y][i] < postSolarBattery[y][i]
  {
    var limit := f.maxImportKW.parsed.value;
    Grid.ImportWithinLimit(postSolarBattery, limit, y, i);
    Grid.ResidualBeyondLimit(postSolarBattery, limit, y, i);
  }
}
