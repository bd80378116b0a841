/**
 * The generation form: required fields, a tilt within [0, 45] degrees and
 * one of the eight compass orientations; losses and degradation are
 * stored as parsed, without a range check.
 */
module GenerationForm {
  import opened Series
  import opened Forms
  import SolarProfile

  datatype GenerationFields = GenerationFields(
    systemSizeKWp: NumberField, panelType: string, orientation: string, tilt: NumberField,
    systemLosses: NumberField, annualDegradation: NumberField)

  /** The rejections, in the order the guards run. */
  datatype GenerationError = MissingRequiredField | TiltOutOfRange | InvalidOrientation

  /** The generation_data columns a submission writes; None is a NaN number. */
  datatype GenerationPayload = GenerationPayload(
    systemSizeKWp: Option<real>, panelType: string, orientation: string, tilt: Option<real>,
    systemLosses: Option<real>, annualDegradation: Option<real>)

  const ValidOrientations: seq<string> := ["N", "E", "S", "W", "NE", "SE", "SW", "NW"]

  predicate AnyMissing(f: GenerationFields)
  {
    Missing(f.systemSizeKWp.text) || Missing(f.panelType) || Missing(f.orientation) || Missing(f.tilt.text)
  }

  /** `handleSubmit`'s checks and the payload it builds. */
  function ValidateGeneration(f: GenerationFields): (r: Result<GenerationPayload, GenerationError>)
    ensures r == Failure(MissingRequiredField) <==> AnyMissing(f)
    ensures r == Failure(TiltOutOfRange) <==> !AnyMissing(f) && OutOfRangeNumber(f.tilt.parsed, 0.0, 45.0)
    ensures r == Failure(InvalidOrientation) <==>
      !AnyMissing(f) && !OutOfRangeNumber(f.tilt.parsed, 0.0, 45.0) && f.orientation !in ValidOrientations
    ensures r.Success? ==>
      && r.value == GenerationPayload(f.systemSizeKWp.parsed, f.panelType, f.orientation, f.tilt.parsed,
                                      f.systemLosses.parsed, f.annualDegradation.parsed)
      && (r.value.tilt.Some? ==> 0.0 <= r.value.tilt.value <= 45.0)
      && r.value.orientation in ValidOrientations
  {
    if AnyMissing(f) then Failure(MissingRequiredField)
    else if OutOfRangeNumber(f.tilt.parsed, 0.0, 45.0) then Failure(TiltOutOfRange)
    else if f.orientation !in ValidOrientations then Failure(InvalidOrientation)
    else Success(GenerationPayload(f.systemSizeKWp.parsed, f.panelType, f.orientation, f.tilt.parsed,
                                   f.systemLosses.parsed, f.annualDegradation.parsed))
  }

  /** The form's orientations are exactly the compass points the solar lookup knows. */
  lemma OrientationsMatchLookup()
    ensures forall o :: o in ValidOrientations <==> o in SolarProfile.CompassKeys
  {
  }

  /**
   * An accepted orientation always has an azimuth, and an accepted tilt
   * rounds to one of 0, 5, ..., 45: the reference curve lookup can fail
   * only because the dataset lacks that key.
   */
  lemma AcceptedGenerationResolves(f: GenerationFields, ds: SolarProfile.SolarDataset)
    requires ValidateGeneration(f).Success? && f.tilt.parsed.Some?
    ensures SolarProfile.Azimuth(f.orientation).Some?
    ensures var t := SolarProfile.RoundTilt(f.tilt.parsed.value);
      0 <= t <= 45 && t % 5 == 0
    ensures SolarProfile.ResolveProfile(ds, f.orientation, f.tilt.parsed.value).None? <==>
      (SolarProfile.Azimuth(f.orientation).value, SolarProfile.RoundTilt(f.tilt.parsed.value)) !in ds
  {
    OrientationsMatchLookup();
  }

  /** Losses and degradation are stored whatever their value: a 250% loss is accepted. */
  lemma LossesUnchecked()
    ensures var f := GenerationFields(NumberField("10", Some(10.0)), "monocrystalline", "S",
                                      NumberField("30", Some(30.0)), NumberField("250", Some(250.0)),
                                      NumberField("-4", Some(-4.0)));
      ValidateGeneration(f).Success? && ValidateGeneration(f).value.systemLosses == Some(250.0)
  {
  }
}
