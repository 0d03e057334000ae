/** Detected chips, their bus ids and the enumeration of their features (src/chips.rs). */
module Chips {
  import opened Prelude
  import opened Errors
  import opened Utils
  import opened Native
  import opened Singleton
  import opened FeatureKinds
  import opened Features

  /** `BusType`: the kind of bus a chip sits on, wildcards excluded. */
  datatype BusType = I2C | ISA | PCI | SPI | VIRTUAL | ACPI | HID | MDIO | SCSI

  /** The `SENSORS_BUS_TYPE_*` code of each variant. */
  function BusTypeCode(t: BusType): Int16
  {
    match t
    case I2C => SENSORS_BUS_TYPE_I2C
    case ISA => SENSORS_BUS_TYPE_ISA
    case PCI => SENSORS_BUS_TYPE_PCI
    case SPI => SENSORS_BUS_TYPE_SPI
    case VIRTUAL => SENSORS_BUS_TYPE_VIRTUAL
    case ACPI => SENSORS_BUS_TYPE_ACPI
    case HID => SENSORS_BUS_TYPE_HID
    case MDIO => SENSORS_BUS_TYPE_MDIO
    case SCSI => SENSORS_BUS_TYPE_SCSI
  }

  /** `BusType::try_from(c_short)`: the nine bus codes, anything else is an unexpected wildcard. */
  function BusTypeTryFrom(value: Int16): (r: Result<BusType, Error>)
    ensures r.Ok? <==> 0 <= value <= 8
    ensures r.Ok? ==> BusTypeCode(r.value) == value
    ensures r.Err? ==> r.error == UnexpectedWildcard(value)
  {
    if value == SENSORS_BUS_TYPE_I2C then Ok(I2C)
    else if value == SENSORS_BUS_TYPE_ISA then Ok(ISA)
    else if value == SENSORS_BUS_TYPE_PCI then Ok(PCI)
    else if value == SENSORS_BUS_TYPE_SPI then Ok(SPI)
    else if value == SENSORS_BUS_TYPE_VIRTUAL then Ok(VIRTUAL)
    else if value == SENSORS_BUS_TYPE_ACPI then Ok(ACPI)
    else if value == SENSORS_BUS_TYPE_HID then Ok(HID)
    else if value == SENSORS_BUS_TYPE_MDIO then Ok(MDIO)
    else if value == SENSORS_BUS_TYPE_SCSI then Ok(SCSI)
    else Err(UnexpectedWildcard(value))
  }

  /** Every bus type converts back from its own code. */
  lemma BusTypeRoundTrip(t: BusType)
    ensures BusTypeTryFrom(BusTypeCode(t)) == Ok(t)
  {
  }

  /** `SENSORS_BUS_TYPE_ANY` is not a bus type. */
  lemma BusTypeAnyRejected()
    ensures BusTypeTryFrom(SENSORS_BUS_TYPE_ANY) == Err(UnexpectedWildcard(SENSORS_BUS_TYPE_ANY))
  {
  }

  /** `BusId`: a bus type and a concrete bus number. */
  datatype BusId = BusId(type_: BusType, nr: Int16)

  /** The two bus-number wildcards. */
  predicate IsBusNrWildcard(nr: Int16)
  {
    nr == SENSORS_BUS_NR_ANY || nr == SENSORS_BUS_NR_IGNORE
  }

  /** The `sensors_bus_id` a `BusId` stands for. */
  function BusIdToRaw(b: BusId): (r: BusIdRaw)
    ensures 0 <= r.type_ <= 8 && r.nr == b.nr
  {
    BusIdRaw(BusTypeCode(b.type_), b.nr)
  }

  /** `BusId::try_from(sensors_bus_id)`: the bus number is checked first, then the type. */
  function BusIdTryFrom(raw: BusIdRaw): (r: Result<BusId, Error>)
    ensures IsBusNrWildcard(raw.nr) ==> r == Err(UnexpectedWildcard(raw.nr))
    ensures !IsBusNrWildcard(raw.nr) ==> (r.Ok? <==> 0 <= raw.type_ <= 8)
    ensures !IsBusNrWildcard(raw.nr) && r.Err? ==> r.error == UnexpectedWildcard(raw.type_)
    ensures r.Ok? ==> BusIdToRaw(r.value) == raw
  {
    if IsBusNrWildcard(raw.nr) then Err(UnexpectedWildcard(raw.nr))
    else
      match BusTypeTryFrom(raw.type_)
      case Err(e) => Err(e)
      case Ok(t) => Ok(BusId(t, raw.nr))
  }

  /** A bus id without wildcards survives the trip through `sensors_bus_id`. */
  lemma BusIdRoundTrip(b: BusId)
    requires !IsBusNrWildcard(b.nr)
    ensures BusIdTryFrom(BusIdToRaw(b)) == Ok(b)
  {
    BusTypeRoundTrip(b.type_);
  }

  /** When both fields are wildcards, the error names the bus number. */
  lemma BusNrCheckedFirst(raw: BusIdRaw)
    requires raw.type_ == SENSORS_BUS_TYPE_ANY && raw.nr == SENSORS_BUS_NR_IGNORE
    ensures BusIdTryFrom(raw) == Err(UnexpectedWildcard(SENSORS_BUS_NR_IGNORE))
  {
  }

  /** `Chip`: a detected chip, with its prefix and bus id decoded once at construction. */
  datatype Chip = Chip(lib: Singleton.LibSensors, raw: Ref<ChipName>, prefix: seq<Byte>, bus: BusId)
  {
    /** What `Chip::new` establishes; the fields are private, so every `Chip` satisfies it. */
    predicate Valid()
    {
      && raw.target.prefix.At?
      && prefix == CStrFrom(raw.target.prefix.pointee)
      && BusIdTryFrom(raw.target.bus) == Ok(bus)
    }

    /** `get_prefix`: the prefix string of the native record. */
    function GetPrefix(): (r: seq<Byte>)
      requires Valid()
      ensures 0 !in r && r + [0] <= raw.target.prefix.pointee
    {
      prefix
    }

    /** `get_bus_id`: the decoded bus of the native record. */
    function GetBusId(): (r: BusId)
      requires Valid()
      ensures BusIdToRaw(r) == raw.target.bus && !IsBusNrWildcard(r.nr)
    {
      bus
    }

    /** `get_name`: the adapter name libsensors reports for the raw bus id; null is `None`. */
    function GetName(): (r: Result<Option<seq<Byte>>, Error>)
      ensures r.Err? <==> SYM_GET_ADAPTER_NAME !in lib.inner.api.exports
      ensures r.Err? ==> r.error == Loading(SymbolNotFound(SYM_GET_ADAPTER_NAME))
      ensures r.Ok? ==> (r.value.None? <==> lib.inner.api.adapterName(raw.target.bus).Null?)
      ensures r.Ok? && r.value.Some? ==>
        0 !in r.value.value && r.value.value + [0] <= lib.inner.api.adapterName(raw.target.bus).pointee
    {
      match Lookup(lib.inner.api, SYM_GET_ADAPTER_NAME)
      case Err(e) => Err(FromLoading(e))
      case Ok(_) => Ok(TryCStr(lib.inner.api.adapterName(raw.target.bus)))
    }

    /** `get_feature(index)`: the feature at cursor `index`, on a copy of the cursor. */
    function GetFeature(index: Int32): (r: Result<Option<Feature>, Error>)
      requires TableOk(FeatureTable(lib, raw), FEATURE_ALIGN)
      ensures SYM_GET_FEATURES !in lib.inner.api.exports ==> r == Err(Loading(SymbolNotFound(SYM_GET_FEATURES)))
      ensures SYM_GET_FEATURES in lib.inner.api.exports ==>
        var refs := Walk(FeatureTable(lib, raw), index);
        && (refs == [] ==> r == Ok(None))
        && (refs != [] && NewFeature(lib, raw, refs[0]).Ok? ==> r == Ok(Some(NewFeature(lib, raw, refs[0]).value)))
        && (refs != [] && NewFeature(lib, raw, refs[0]).Err? ==> r == Err(NewFeature(lib, raw, refs[0]).error))
    {
      match Lookup(lib.inner.api, SYM_GET_FEATURES)
      case Err(e) => Err(FromLoading(e))
      case Ok(_) => InvertResOpt(GetFeatureRaw(lib, raw, index).0)
    }

    /** `get_features`: an iterator from cursor 0, once the entry point has been found. */
    method GetFeatures() returns (r: Result<FeatureIterator, Error>)
      ensures r.Err? <==> SYM_GET_FEATURES !in lib.inner.api.exports
      ensures r.Err? ==> r.error == Loading(SymbolNotFound(SYM_GET_FEATURES))
      ensures r.Ok? ==> fresh(r.value) && r.value.lib == lib && r.value.chip == raw && r.value.index == 0
    {
      var sym := Lookup(lib.inner.api, SYM_GET_FEATURES);
      if sym.Err? {
        r := Err(FromLoading(sym.error));
      } else {
        var it := new FeatureIterator(lib, raw);
        r := Ok(it);
      }
    }
  }

  /** `Chip::new`: a null prefix is a panic (excluded here); a wildcard bus id is an error. */
  function NewChip(lib: Singleton.LibSensors, raw: Ref<ChipName>): (r: Result<Chip, Error>)
    requires raw.target.prefix.At?
    ensures r.Ok? <==> BusIdTryFrom(raw.target.bus).Ok?
    ensures r.Err? ==> r.error == BusIdTryFrom(raw.target.bus).error
    ensures r.Ok? ==> r.value.Valid() && r.value.lib == lib && r.value.raw == raw
  {
    var prefix := CStrFrom(raw.target.prefix.pointee);
    match BusIdTryFrom(raw.target.bus)
    case Err(e) => Err(e)
    case Ok(bus) => Ok(Chip(lib, raw, prefix, bus))
  }

  /** The `sensors_get_features` table of a chip. */
  function FeatureTable(lib: Singleton.LibSensors, chip: Ref<ChipName>): seq<Ptr<FeatureRec>>
  {
    lib.inner.api.features(chip.addr)
  }

  /** `get_feature_raw`: one call of `sensors_get_features` with cursor `index`, its result turned into a
      `Feature`; a misaligned pointer is a panic (excluded by `TableOk`). Returns the advanced cursor. */
  function GetFeatureRaw(lib: Singleton.LibSensors, chip: Ref<ChipName>, index: Int32): (r: (Option<Result<Feature, Error>>, Int32))
    requires TableOk(FeatureTable(lib, chip), FEATURE_ALIGN)
    ensures Walk(FeatureTable(lib, chip), index) == [] ==> r == (None, index)
    ensures Walk(FeatureTable(lib, chip), index) != [] ==>
      && r.0 == Some(NewFeature(lib, chip, Walk(FeatureTable(lib, chip), index)[0]))
      && r.1 == index + 1
      && Walk(FeatureTable(lib, chip), r.1) == Walk(FeatureTable(lib, chip), index)[1..]
  {
    var (p, next) := Step(FeatureTable(lib, chip), index);
    match PtrToRef(p, FEATURE_ALIGN)
    case Ok(None) => (None, next)
    case Ok(Some(f)) => (Some(NewFeature(lib, chip, f)), next)
  }

  /** The features enumerated from cursor `nr` on, each decoded by `Feature::new`. */
  function FeatureItems(lib: Singleton.LibSensors, chip: Ref<ChipName>, nr: int): (r: seq<Result<Feature, Error>>)
    ensures |r| == |Walk(FeatureTable(lib, chip), nr)|
  {
    var refs := Walk(FeatureTable(lib, chip), nr);
    seq(|refs|, k requires 0 <= k < |refs| => NewFeature(lib, chip, refs[k]))
  }

  /** `get_feature(k)` gives the `k`-th item of a fresh `get_features` iterator. */
  lemma GetFeatureIsNthItem(c: Chip, k: Int32)
    requires TableOk(FeatureTable(c.lib, c.raw), FEATURE_ALIGN) && SYM_GET_FEATURES in c.lib.inner.api.exports
    requires 0 <= k < |FeatureItems(c.lib, c.raw, 0)|
    ensures c.GetFeature(k) == InvertResOpt(Some(FeatureItems(c.lib, c.raw, 0)[k]))
  {
    WalkDrop(FeatureTable(c.lib, c.raw), 0, k as nat);
  }

  /** Against a table of `n` features followed by a null, a fresh feature iterator yields exactly `n` items. */
  lemma FeatureCount(c: Chip, n: nat)
    requires n <= |FeatureTable(c.lib, c.raw)|
    requires forall i :: 0 <= i < n ==> FeatureTable(c.lib, c.raw)[i].At?
    requires n == |FeatureTable(c.lib, c.raw)| || FeatureTable(c.lib, c.raw)[n].Null?
    ensures |FeatureItems(c.lib, c.raw, 0)| == n
  {
    WalkCount(FeatureTable(c.lib, c.raw), n);
  }

  /** `FeatureIterator`: walks `sensors_get_features` with its own cursor. An item whose type code is
      unknown is an error, and iteration goes on past it. */
  class FeatureIterator {
    const lib: Singleton.LibSensors
    const chip: Ref<ChipName>
    var index: Int32

    constructor (lib: Singleton.LibSensors, chip: Ref<ChipName>)
      ensures this.lib == lib && this.chip == chip && index == 0
    {
      this.lib := lib;
      this.chip := chip;
      index := 0;
    }

    /** The items still to come. */
    function Remaining(): seq<Result<Feature, Error>>
      reads this
    {
      FeatureItems(lib, chip, index)
    }

    /** `next` */
    method Next() returns (item: Option<Result<Feature, Error>>)
      requires TableOk(FeatureTable(lib, chip), FEATURE_ALIGN)
      modifies this
      ensures old(Remaining()) == [] ==> item == None && Remaining() == []
      ensures old(Remaining()) != [] ==> item == Some(old(Remaining())[0]) && Remaining() == old(Remaining())[1..]
    {
      var (it, next) := GetFeatureRaw(lib, chip, index);
      index := next;
      item := it;
    }
  }
}
