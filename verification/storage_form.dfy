/**
 * The storage form: required fields, then depth of discharge and
 * round-trip efficiency within [0, 100]. The range guards do not test for
 * NaN, and capacity and power have no sign check at all.
 */
module StorageForm {
  import opened Series
  import opened Forms
  import Battery

  datatype StorageFields = StorageFields(
    capacityKWh: NumberField, powerKW: NumberField, chemistry: string, depthOfDischarge: NumberField,
    roundTripEfficiency: NumberField, annualDegradation: NumberField, dischargeBehaviour: string,
    dischargeTime: IntField)

  /** The rejections, in the order the guards run. */
  datatype StorageError = MissingRequiredField | DepthOutOfRange | EfficiencyOutOfRange

  /** `discharge_time`: null, or what `parseInt` made of the field. */
  datatype DischargeTime = NoDischargeTime | DischargeAt(hour: Option<int>)

  /** The storage_data columns a submission writes; None is a NaN number. */
  datatype StoragePayload = StoragePayload(
    capacityKWh: Option<real>, powerKW: Option<real>, chemistry: string, depthOfDischarge: Option<real>,
    roundTripEfficiency: Option<real>, annualDegradation: Option<real>, dischargeBehaviour: string,
    dischargeTime: DischargeTime)

  const SetDischargeTime: string := "Set Discharge Time"

  predicate AnyMissing(f: StorageFields)
  {
    Missing(f.capacityKWh.text) || Missing(f.powerKW.text) || Missing(f.chemistry)
    || Missing(f.depthOfDischarge.text) || Missing(f.roundTripEfficiency.text)
  }

  /** A discharge time is stored only for the set-time behaviour with a non-empty field. */
  function DischargeTimeOf(f: StorageFields): (r: DischargeTime)
    ensures r.DischargeAt? <==> f.dischargeBehaviour == SetDischargeTime && f.dischargeTime.text != ""
    ensures r.DischargeAt? ==> r.hour == f.dischargeTime.parsed
  {
    if f.dischargeBehaviour == SetDischargeTime && f.dischargeTime.text != "" then DischargeAt(f.dischargeTime.parsed)
    else NoDischargeTime
  }

  /** `handleSubmit`'s checks and the payload it builds. */
  function ValidateStorage(f: StorageFields): (r: Result<StoragePayload, StorageError>)
    ensures r == Failure(MissingRequiredField) <==> AnyMissing(f)
    ensures r == Failure(DepthOutOfRange) <==> !AnyMissing(f) && OutOfRangeNumber(f.depthOfDischarge.parsed, 0.0, 100.0)
    ensures r == Failure(EfficiencyOutOfRange) <==>
      !AnyMissing(f) && !OutOfRangeNumber(f.depthOfDischarge.parsed, 0.0, 100.0)
      && OutOfRangeNumber(f.roundTripEfficiency.parsed, 0.0, 100.0)
    ensures r.Success? ==>
      && r.value.capacityKWh == f.capacityKWh.parsed && r.value.powerKW == f.powerKW.parsed
      && r.value.chemistry == f.chemistry
      && r.value.depthOfDischarge == f.depthOfDischarge.parsed
      && (r.value.depthOfDischarge.Some? ==> 0.0 <= r.value.depthOfDischarge.value <= 100.0)
      && r.value.roundTripEfficiency == f.roundTripEfficiency.parsed
      && (r.value.roundTripEfficiency.Some? ==> 0.0 <= r.value.roundTripEfficiency.value <= 100.0)
      && r.value.annualDegradation == f.annualDegradation.parsed
      && r.value.dischargeBehaviour == f.dischargeBehaviour
      && r.value.dischargeTime == DischargeTimeOf(f)
  {
    if AnyMissing(f) then Failure(MissingRequiredField)
    else if OutOfRangeNumber(f.depthOfDischarge.parsed, 0.0, 100.0) then Failure(DepthOutOfRange)
    else if OutOfRangeNumber(f.roundTripEfficiency.parsed, 0.0, 100.0) then Failure(EfficiencyOutOfRange)
    else Success(StoragePayload(f.capacityKWh.parsed, f.powerKW.parsed, f.chemistry, f.depthOfDischarge.parsed,
                                f.roundTripEfficiency.parsed, f.annualDegradation.parsed, f.dischargeBehaviour,
                                DischargeTimeOf(f)))
  }

  /**
   * The range guards let an unparseable percentage through, and nothing
   * checks the sign of the capacity: this form is accepted with a NaN depth
   * of discharge and a capacity of -10 kWh.
   */
  lemma GuardsLetNaNAndNegativeCapacityThrough()
    ensures var f := StorageFields(
        NumberField("-10", Some(-10.0)), NumberField("5", Some(5.0)), "Lead Acid", NumberField("abc", None),
        NumberField("90", Some(90.0)), NumberField("", None), "Arbitrage Maximisation", IntField("", None));
      && ValidateStorage(f).Success?
      && ValidateStorage(f).value.depthOfDischarge.None?
      && ValidateStorage(f).value.capacityKWh == Some(-10.0)
  {
  }

  /**
   * The storage row the battery stage reads back from a submission whose
   * capacity and power parsed: those two numbers and nothing else. What the
   * database makes of a NaN capacity or power is not part of this model.
   */
  function StorageRowOf(p: StoragePayload): (r: Battery.StorageRow)
    requires p.capacityKWh.Some? && p.powerKW.Some?
    ensures r.capacityKWh == p.capacityKWh.value && r.powerKW == p.powerKW.value
  {
    Battery.StorageRow(p.capacityKWh.value, p.powerKW.value)
  }

  /**
   * Efficiency, depth of discharge, degradation and discharge behaviour
   * never reach the dispatch: two accepted forms that agree on capacity
   * and power give the same storage row.
   */
  lemma OnlyCapacityAndPowerReachTheBattery(f: StorageFields, g: StorageFields)
    requires ValidateStorage(f).Success? && ValidateStorage(g).Success?
    requires f.capacityKWh.parsed.Some? && f.powerKW.parsed.Some?
    requires f.capacityKWh.parsed == g.capacityKWh.parsed && f.powerKW.parsed == g.powerKW.parsed
    ensures StorageRowOf(ValidateStorage(f).value) == StorageRowOf(ValidateStorage(g).value)
  {
  }
}
