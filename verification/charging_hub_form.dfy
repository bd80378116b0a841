/**
 * The charging hub form: required fields, a positive charger power, a
 * positive number of chargers and a positive priority, checked in that
 * order; optional links left empty are stored as null.
 */
module ChargingHubForm {
  import opened Series
  import opened Forms
  import ChargingDemand

  datatype HubForm = HubForm(
    hubName: string, chargerPower: NumberField, numberOfChargers: IntField, priority: IntField,
    chargingProfileId: string, salesTariffId: string)

  /** The rejections, in the order the guards run. */
  datatype HubError = MissingRequiredField | PowerNotPositive | ChargersNotPositive | PriorityNotPositive

  /** The charging_hubs columns a submission writes. */
  datatype HubPayload = HubPayload(
    hubName: string, chargerPower: real, numberOfChargers: int, priority: int,
    chargingProfileId: Option<string>, salesTariffId: Option<string>)

  predicate AnyMissing(f: HubForm)
  {
    Missing(f.hubName) || Missing(f.chargerPower.text) || Missing(f.numberOfChargers.text) || Missing(f.priority.text)
  }

  /** `handleSubmit`'s checks and the payload it builds. */
  function ValidateHub(f: HubForm): (r: Result<HubPayload, HubError>)
    ensures r == Failure(MissingRequiredField) <==> AnyMissing(f)
    ensures r == Failure(PowerNotPositive) <==> !AnyMissing(f) && NotPositive(f.chargerPower.parsed)
    ensures r == Failure(ChargersNotPositive) <==>
      !AnyMissing(f) && !NotPositive(f.chargerPower.parsed) && NotPositiveInt(f.numberOfChargers.parsed)
    ensures r == Failure(PriorityNotPositive) <==>
      !AnyMissing(f) && !NotPositive(f.chargerPower.parsed) && !NotPositiveInt(f.numberOfChargers.parsed)
      && NotPositiveInt(f.priority.parsed)
    ensures r.Success? ==>
      && f.chargerPower.parsed.Some? && f.numberOfChargers.parsed.Some? && f.priority.parsed.Some?
      && r.value.hubName == f.hubName
      && r.value.chargerPower == f.chargerPower.parsed.value > 0.0
      && r.value.numberOfChargers == f.numberOfChargers.parsed.value > 0
      && r.value.priority == f.priority.parsed.value > 0
      && (r.value.chargingProfileId.None? <==> f.chargingProfileId == "")
      && (r.value.chargingProfileId.Some? ==> r.value.chargingProfileId.value == f.chargingProfileId)
      && (r.value.salesTariffId.None? <==> f.salesTariffId == "")
      && (r.value.salesTariffId.Some? ==> r.value.salesTariffId.value == f.salesTariffId)
  {
    if AnyMissing(f) then Failure(MissingRequiredField)
    else if NotPositive(f.chargerPower.parsed) then Failure(PowerNotPositive)
    else if NotPositiveInt(f.numberOfChargers.parsed) then Failure(ChargersNotPositive)
    else if NotPositiveInt(f.priority.parsed) then Failure(PriorityNotPositive)
    else Success(HubPayload(f.hubName, f.chargerPower.parsed.value, f.numberOfChargers.parsed.value,
                            f.priority.parsed.value, NullIfEmpty(f.chargingProfileId), NullIfEmpty(f.salesTariffId)))
  }

  /**
   * An accepted hub has a positive charging capacity: every hour of the
   * capacity profile the demand stage builds from it is positive.
   */
  lemma AcceptedHubHasCapacity(f: HubForm)
    requires ValidateHub(f).Success?
    ensures var p := ValidateHub(f).value;
      ChargingDemand.HubCapacity(Some(p.chargerPower), Some(p.numberOfChargers as real)) > 0.0
  {
    var p := ValidateHub(f).value;
    var n := p.numberOfChargers as real;
    assert n > 0.0;
    assert p.chargerPower * n > 0.0;
  }
}
