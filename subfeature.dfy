/** A single reading and its capability flags (src/subfeature.rs). */
module Subfeatures {
  import opened Prelude
  import opened Errors
  import opened Utils
  import opened Native
  import opened Singleton
  import FeatureKinds

  /** `Subfeature`: a view of a native subfeature record of one chip. */
  datatype Subfeature = Subfeature(lib: LibSensors, chip: Ref<ChipName>, raw: Ref<SubfeatureRec>)
  {
    /** `get_name` */
    function GetName(): (r: Option<seq<Byte>>)
      ensures r.None? <==> raw.target.name.Null?
      ensures r.Some? ==> r.value == CStrFrom(raw.target.name.pointee)
    {
      TryCStr(raw.target.name)
    }

    /** `get_value`: the slot starts as NaN, the native call may write it, and a negative code is an error. */
    method GetValue() returns (r: Result<Double, Error>)
      ensures SYM_GET_VALUE !in lib.inner.api.exports ==> r == Err(Loading(SymbolNotFound(SYM_GET_VALUE)))
      ensures SYM_GET_VALUE in lib.inner.api.exports ==>
        var (code, written) := lib.inner.api.getValue(chip.addr, raw.target.number);
        && (r.Err? <==> code < 0)
        && (r.Err? ==> r.error == Sensors(SensorsError(code)))
        && (r.Ok? ==> r.value == if written.Some? then written.value else NAN)
    {
      match Lookup(lib.inner.api, SYM_GET_VALUE)
      case Err(e) =>
        r := Err(FromLoading(e));
      case Ok(_) =>
        var value: Double := NAN;
        var (code, written) := lib.inner.api.getValue(chip.addr, raw.target.number);
        if written.Some? {
          value := written.value;
        }
        match ConvertCint(code)
        case Err(e) =>
          r := Err(FromSensors(e));
        case Ok(_) =>
          r := Ok(value);
    }

    /** `set_value` */
    function SetValue(value: Double): (r: Result<(), Error>)
      ensures SYM_SET_VALUE !in lib.inner.api.exports ==> r == Err(Loading(SymbolNotFound(SYM_SET_VALUE)))
      ensures SYM_SET_VALUE in lib.inner.api.exports ==>
        var code := lib.inner.api.setValue(chip.addr, raw.target.number, value);
        (r == Ok(()) <==> code >= 0) && (code < 0 ==> r == Err(Sensors(SensorsError(code))))
    {
      match Lookup(lib.inner.api, SYM_SET_VALUE)
      case Err(e) => Err(FromLoading(e))
      case Ok(_) =>
        match ConvertCint(lib.inner.api.setValue(chip.addr, raw.target.number, value))
        case Err(e) => Err(FromSensors(e))
        case Ok(_) => Ok(())
    }

    /** `can_get`: the read bit is set, i.e. or-ing it in changes nothing. */
    function CanGet(): (r: bool)
      ensures r <==> raw.target.flags | SENSORS_MODE_R == raw.target.flags
    {
      raw.target.flags & SENSORS_MODE_R != 0
    }

    /** `can_set`: the write bit is set, i.e. or-ing it in changes nothing. */
    function CanSet(): (r: bool)
      ensures r <==> raw.target.flags | SENSORS_MODE_W == raw.target.flags
    {
      raw.target.flags & SENSORS_MODE_W != 0
    }
  }

  /** The capability tests read exactly one bit each: read-only, write-only, read-write and no flags. */
  lemma CapabilityFixtures(s: Subfeature)
    ensures s.raw.target.flags == 0 ==> !s.CanGet() && !s.CanSet()
    ensures s.raw.target.flags == SENSORS_MODE_R ==> s.CanGet() && !s.CanSet()
    ensures s.raw.target.flags == SENSORS_MODE_W ==> !s.CanGet() && s.CanSet()
    ensures s.raw.target.flags == SENSORS_MODE_R | SENSORS_MODE_W ==> s.CanGet() && s.CanSet()
  {
  }

  /** Each test depends on its own bit alone: agreeing on the read (write) bit means agreeing on `can_get` (`can_set`). */
  lemma CapabilityBits(s: Subfeature, s': Subfeature)
    ensures s.raw.target.flags & SENSORS_MODE_R == s'.raw.target.flags & SENSORS_MODE_R ==> s.CanGet() == s'.CanGet()
    ensures s.raw.target.flags & SENSORS_MODE_W == s'.raw.target.flags & SENSORS_MODE_W ==> s.CanSet() == s'.CanSet()
  {
  }

  /** Setting or clearing the read bit decides `can_get` and leaves `can_set` as it was. */
  lemma ReadBitDecides(s: Subfeature, s': Subfeature)
    ensures s'.raw.target.flags == s.raw.target.flags | SENSORS_MODE_R ==> s'.CanGet() && s'.CanSet() == s.CanSet()
    ensures s'.raw.target.flags == s.raw.target.flags & !SENSORS_MODE_R ==> !s'.CanGet() && s'.CanSet() == s.CanSet()
  {
  }

  /** Setting or clearing the write bit decides `can_set` and leaves `can_get` as it was. */
  lemma WriteBitDecides(s: Subfeature, s': Subfeature)
    ensures s'.raw.target.flags == s.raw.target.flags | SENSORS_MODE_W ==> s'.CanSet() && s'.CanGet() == s.CanGet()
    ensures s'.raw.target.flags == s.raw.target.flags & !SENSORS_MODE_W ==> !s'.CanSet() && s'.CanGet() == s.CanGet()
  {
  }

  /** `GenericSubfeature`: feature-independent names for common subfeatures. */
  datatype GenericSubfeature = Input | Min | Max
  {
    /** `to_primitive`, as written: note the `Temp` input, which gives the fan code. */
    function ToPrimitive(featureType: FeatureKinds.FeatureType): (r: Option<Uint32>)
      ensures Input? ==> (r.Some? <==> featureType in InputTypes())
      ensures !Input? ==> (r.Some? <==> featureType in LimitTypes())
    {
      match this
      case Input => (
        match featureType
        case In => Some(SENSORS_SUBFEATURE_IN_INPUT)
        case Fan => Some(SENSORS_SUBFEATURE_FAN_INPUT)
        case Temp => Some(SENSORS_SUBFEATURE_FAN_INPUT)
        case Power => Some(SENSORS_SUBFEATURE_POWER_INPUT)
        case Energy => Some(SENSORS_SUBFEATURE_ENERGY_INPUT)
        case Current => Some(SENSORS_SUBFEATURE_CURR_INPUT)
        case Humidity => Some(SENSORS_SUBFEATURE_HUMIDITY_INPUT)
        case _ => None)
      case Min => (
        match featureType
        case In => Some(SENSORS_SUBFEATURE_IN_MIN)
        case Fan => Some(SENSORS_SUBFEATURE_FAN_MIN)
        case Temp => Some(SENSORS_SUBFEATURE_TEMP_MIN)
        case Power => Some(SENSORS_SUBFEATURE_POWER_MIN)
        case Current => Some(SENSORS_SUBFEATURE_CURR_MIN)
        case _ => None)
      case Max => (
        match featureType
        case In => Some(SENSORS_SUBFEATURE_IN_MAX)
        case Fan => Some(SENSORS_SUBFEATURE_FAN_MAX)
        case Temp => Some(SENSORS_SUBFEATURE_TEMP_MAX)
        case Power => Some(SENSORS_SUBFEATURE_POWER_MAX)
        case Current => Some(SENSORS_SUBFEATURE_CURR_MAX)
        case _ => None)
    }

    /** `to_primitive` with the `Temp` input fixed to `SENSORS_SUBFEATURE_TEMP_INPUT`. */
    function ToPrimitiveIntended(featureType: FeatureKinds.FeatureType): (r: Option<Uint32>)
      ensures r.Some? <==> ToPrimitive(featureType).Some?
    {
      if this.Input? && featureType.Temp? then Some(SENSORS_SUBFEATURE_TEMP_INPUT) else ToPrimitive(featureType)
    }
  }

  /** The feature types with an input subfeature. */
  function InputTypes(): set<FeatureKinds.FeatureType>
  {
    {FeatureKinds.In, FeatureKinds.Fan, FeatureKinds.Temp, FeatureKinds.Power, FeatureKinds.Energy,
     FeatureKinds.Current, FeatureKinds.Humidity}
  }

  /** The feature types with min and max subfeatures: no energy or humidity limits. */
  function LimitTypes(): set<FeatureKinds.FeatureType>
  {
    {FeatureKinds.In, FeatureKinds.Fan, FeatureKinds.Temp, FeatureKinds.Power, FeatureKinds.Current}
  }

  /** As written, the temperature input maps to the fan input, so the code it returns belongs to another
      feature type and the two inputs cannot be told apart. */
  lemma TempInputIsFanInput()
    ensures Input.ToPrimitive(FeatureKinds.Temp) == Input.ToPrimitive(FeatureKinds.Fan) == Some(SENSORS_SUBFEATURE_FAN_INPUT)
    ensures Input.ToPrimitive(FeatureKinds.Temp).value / 0x100 != FeatureKinds.Discriminant(FeatureKinds.Temp)
  {
  }

  /** With the fix, every code returned belongs to the feature type asked for. */
  lemma IntendedMatchesFeature(g: GenericSubfeature, f: FeatureKinds.FeatureType)
    ensures g.ToPrimitiveIntended(f).Some? ==> g.ToPrimitiveIntended(f).value / 0x100 == FeatureKinds.Discriminant(f)
  {
  }

  /** Apart from that entry, every code `to_primitive` returns belongs to the feature type asked for, so
      the table is injective in the feature type. */
  lemma ToPrimitiveMatchesFeature(g: GenericSubfeature, f: FeatureKinds.FeatureType, f': FeatureKinds.FeatureType)
    requires !(g.Input? && f.Temp?) && !(g.Input? && f'.Temp?)
    ensures g.ToPrimitive(f).Some? ==> g.ToPrimitive(f).value / 0x100 == FeatureKinds.Discriminant(f)
    ensures g.ToPrimitive(f).Some? && g.ToPrimitive(f) == g.ToPrimitive(f') ==> f == f'
  {
  }

  /** With the fix, distinct (kind, feature type) pairs never share a code. */
  lemma IntendedIsInjective(g: GenericSubfeature, g': GenericSubfeature, f: FeatureKinds.FeatureType, f': FeatureKinds.FeatureType)
    requires g.ToPrimitiveIntended(f).Some?
    requires g.ToPrimitiveIntended(f) == g'.ToPrimitiveIntended(f')
    ensures g == g' && f == f'
  {
  }
}
