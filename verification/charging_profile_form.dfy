/**
 * The charging profile form: the guard chain that accepts or rejects a
 * submission, and the initial-year energy shown beside it, which is the
 * annual total the behaviour patterns are built from.
 */
module ChargingProfileForm {
  import opened Series
  import opened Forms
  import Behaviour

  datatype ProfileForm = ProfileForm(
    profileName: string, initialVehicles: IntField, chargingPercentage: NumberField, batterySize: NumberField)

  /** The rejections, in the order the guards run. */
  datatype ProfileError = MissingRequiredField | VehiclesNotPositive | PercentageOutOfRange | BatterySizeNotPositive

  /** The charging_profiles columns a submission writes. */
  datatype ProfilePayload = ProfilePayload(
    profileName: string, initialVehicles: int, chargingPercentage: real, batterySize: real)

  predicate AnyMissing(f: ProfileForm)
  {
    Missing(f.profileName) || Missing(f.initialVehicles.text) || Missing(f.chargingPercentage.text)
    || Missing(f.batterySize.text)
  }

  /**
   * `handleSubmit`'s checks: every field filled, a positive integer number
   * of vehicles, a charging percentage in [0, 100] and a positive battery
   * size; the payload carries the parsed values.
   */
  function ValidateProfile(f: ProfileForm): (r: Result<ProfilePayload, ProfileError>)
    ensures r == Failure(MissingRequiredField) <==> AnyMissing(f)
    ensures r == Failure(VehiclesNotPositive) <==> !AnyMissing(f) && NotPositiveInt(f.initialVehicles.parsed)
    ensures r == Failure(PercentageOutOfRange) <==>
      !AnyMissing(f) && !NotPositiveInt(f.initialVehicles.parsed)
      && OutOfRange(f.chargingPercentage.parsed, 0.0, 100.0)
    ensures r == Failure(BatterySizeNotPositive) <==>
      !AnyMissing(f) && !NotPositiveInt(f.initialVehicles.parsed)
      && !OutOfRange(f.chargingPercentage.parsed, 0.0, 100.0) && NotPositive(f.batterySize.parsed)
    ensures r.Success? ==>
      && f.initialVehicles.parsed.Some? && f.chargingPercentage.parsed.Some? && f.batterySize.parsed.Some?
      && r.value == ProfilePayload(f.profileName, f.initialVehicles.parsed.value,
                                   f.chargingPercentage.parsed.value, f.batterySize.parsed.value)
      && r.value.initialVehicles > 0 && 0.0 <= r.value.chargingPercentage <= 100.0 && r.value.batterySize > 0.0
  {
    if AnyMissing(f) then Failure(MissingRequiredField)
    else if NotPositiveInt(f.initialVehicles.parsed) then Failure(VehiclesNotPositive)
    else if OutOfRange(f.chargingPercentage.parsed, 0.0, 100.0) then Failure(PercentageOutOfRange)
    else if NotPositive(f.batterySize.parsed) then Failure(BatterySizeNotPositive)
    else Success(ProfilePayload(f.profileName, f.initialVehicles.parsed.value,
                                f.chargingPercentage.parsed.value, f.batterySize.parsed.value))
  }

  /**
   * `calculateTotalKWh`: vehicles times the charging fraction times the
   * battery size, an unparseable input counting as 0. The result is never
   * NaN over the reals, so its final NaN guard has nothing to do here.
   */
  function TotalKWh(f: ProfileForm): (r: real)
    ensures f.initialVehicles.parsed.None? || f.chargingPercentage.parsed.None? || f.batterySize.parsed.None? ==> r == 0.0
  {
    var vehicles := IntOrZero(f.initialVehicles.parsed);
    var rechargeDecimal := OrZero(f.chargingPercentage.parsed) / 100.0;
    vehicles as real * rechargeDecimal * OrZero(f.batterySize.parsed)
  }

  lemma NonNegativeProduct3(a: real, b: real, c: real)
    requires a >= 0.0 && b >= 0.0 && c >= 0.0
    ensures a * b * c >= 0.0
  {
    assert a * b >= 0.0;
  }

  lemma PositiveProduct3(a: real, b: real, c: real)
    requires a > 0.0 && b > 0.0 && c > 0.0
    ensures a * b * c > 0.0
  {
    assert a * b > 0.0;
  }

  /**
   * An accepted form's energy is its payload's vehicles times charging
   * fraction times battery size; it is never negative, and it is positive
   * exactly when the charging percentage is.
   */
  lemma AcceptedProfileEnergy(f: ProfileForm)
    requires ValidateProfile(f).Success?
    ensures var p := ValidateProfile(f).value;
      && TotalKWh(f) == p.initialVehicles as real * (p.chargingPercentage / 100.0) * p.batterySize
      && TotalKWh(f) >= 0.0
      && (TotalKWh(f) > 0.0 <==> p.chargingPercentage > 0.0)
  {
    var p := ValidateProfile(f).value;
    var v := p.initialVehicles as real;
    var c := p.chargingPercentage / 100.0;
    NonNegativeProduct3(v, c, p.batterySize);
    if p.chargingPercentage > 0.0 {
      PositiveProduct3(v, c, p.batterySize);
    } else {
      assert c == 0.0;
    }
  }

  /**
   * The behaviour patterns of an accepted form with a positive charging
   * percentage split its energy exactly between weekdays and weekend days,
   * whatever scale the slider is at.
   */
  lemma AcceptedProfileAllocates(f: ProfileForm, scale: real)
    requires ValidateProfile(f).Success? && ValidateProfile(f).value.chargingPercentage > 0.0
    requires -200.0 <= scale <= 200.0
    ensures var a := Behaviour.WeekdayWeekendAllocation(TotalKWh(f), scale);
      a.totalWeekday + a.totalWeekend == TotalKWh(f)
  {
    AcceptedProfileEnergy(f);
    Behaviour.AllocationSplitsTotal(TotalKWh(f), scale);
  }
}
