/** `FeatureType` and its `strum::FromRepr` decoder (src/feature.rs). */
module FeatureKinds {
  import opened Prelude
  import opened Native

  datatype FeatureType =
    | In | Fan | Temp | Power | Energy | Current | Humidity | MaxMain | Vid | Intrusion | MaxOther | BeepEnable | Max

  /** The `repr(u32)` discriminant: the matching `SENSORS_FEATURE_*` code. */
  function Discriminant(t: FeatureType): Uint32
  {
    match t
    case In => SENSORS_FEATURE_IN
    case Fan => SENSORS_FEATURE_FAN
    case Temp => SENSORS_FEATURE_TEMP
    case Power => SENSORS_FEATURE_POWER
    case Energy => SENSORS_FEATURE_ENERGY
    case Current => SENSORS_FEATURE_CURR
    case Humidity => SENSORS_FEATURE_HUMIDITY
    case MaxMain => SENSORS_FEATURE_MAX_MAIN
    case Vid => SENSORS_FEATURE_VID
    case Intrusion => SENSORS_FEATURE_INTRUSION
    case MaxOther => SENSORS_FEATURE_MAX_OTHER
    case BeepEnable => SENSORS_FEATURE_BEEP_ENABLE
    case Max => SENSORS_FEATURE_MAX
  }

  /** `FeatureType::from_repr`: the variant with this discriminant, if there is one. */
  function FromRepr(value: Uint32): (r: Option<FeatureType>)
    ensures r.Some? ==> Discriminant(r.value) == value
    ensures r.None? ==> forall t :: Discriminant(t) != value
  {
    if value == SENSORS_FEATURE_IN then Some(In)
    else if value == SENSORS_FEATURE_FAN then Some(Fan)
    else if value == SENSORS_FEATURE_TEMP then Some(Temp)
    else if value == SENSORS_FEATURE_POWER then Some(Power)
    else if value == SENSORS_FEATURE_ENERGY then Some(Energy)
    else if value == SENSORS_FEATURE_CURR then Some(Current)
    else if value == SENSORS_FEATURE_HUMIDITY then Some(Humidity)
    else if value == SENSORS_FEATURE_MAX_MAIN then Some(MaxMain)
    else if value == SENSORS_FEATURE_VID then Some(Vid)
    else if value == SENSORS_FEATURE_INTRUSION then Some(Intrusion)
    else if value == SENSORS_FEATURE_MAX_OTHER then Some(MaxOther)
    else if value == SENSORS_FEATURE_BEEP_ENABLE then Some(BeepEnable)
    else if value == SENSORS_FEATURE_MAX then Some(Max)
    else None
  }

  /** Decoding a discriminant gives its variant back, so the 13 discriminants are distinct. */
  lemma FromReprRoundTrip(t: FeatureType)
    ensures FromRepr(Discriminant(t)) == Some(t)
  {
  }

  /** `SENSORS_FEATURE_UNKNOWN` and the gaps between the codes are not feature types. */
  lemma FromReprRejects()
    ensures FromRepr(SENSORS_FEATURE_UNKNOWN) == None
    ensures forall v: Uint32 :: 0x07 < v < 0x10 || 0x12 < v < 0x18 || v > 0x19 ==> FromRepr(v) == None
  {
  }
}
