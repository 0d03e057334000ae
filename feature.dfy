/** A measurement group of a chip, its label and its subfeatures (src/feature.rs). */
module Features {
  import opened Prelude
  import opened Errors
  import opened Utils
  import opened Utf8
  import opened Native
  import opened Singleton
  import opened FeatureKinds
  import opened Subfeatures

  /** `GetLabelError` */
  datatype GetLabelError = GetLabelFailed | LibSensors(error: Error)

  /** `Feature`: a view of a native feature record whose type code has been decoded. */
  datatype Feature = Feature(lib: Singleton.LibSensors, chip: Ref<ChipName>, raw: Ref<FeatureRec>, type_: FeatureType)
  {
    /** What `Feature::new` establishes; the fields are private, so every `Feature` satisfies it. */
    predicate Valid()
    {
      FromRepr(raw.target.type_) == Some(type_)
    }

    /** `get_type`: the variant whose discriminant is the native record's type code. */
    function GetType(): (r: FeatureType)
      requires Valid()
      ensures Discriminant(r) == raw.target.type_
      ensures FromRepr(Discriminant(r)) == Some(r)
    {
      type_
    }

    /** `get_name`: the name pointer is non-null by libsensors' contract (`CStr::from_ptr`, unchecked). */
    function GetName(): (r: seq<Byte>)
      requires raw.target.name.At?
      ensures 0 !in r && r + [0] <= raw.target.name.pointee
    {
      CStrFrom(raw.target.name.pointee)
    }

    /** `get_subfeature_by_type`: a misaligned result is a panic (`expect`), excluded here. */
    function GetSubfeatureByType(type_: Uint32): (r: Result<Option<Subfeature>, Error>)
      requires lib.inner.api.subfeatureOfType(chip.addr, raw.addr, type_).At? ==>
        lib.inner.api.subfeatureOfType(chip.addr, raw.addr, type_).addr % SUBFEATURE_ALIGN == 0
      ensures SYM_GET_SUBFEATURE !in lib.inner.api.exports ==> r == Err(Loading(SymbolNotFound(SYM_GET_SUBFEATURE)))
      ensures SYM_GET_SUBFEATURE in lib.inner.api.exports ==>
        var p := lib.inner.api.subfeatureOfType(chip.addr, raw.addr, type_);
        && r.Ok?
        && (r.value.None? <==> p.Null?)
        && (r.value.Some? ==> r.value.value == Subfeature(lib, chip, Ref(p.addr, p.pointee)))
    {
      match Lookup(lib.inner.api, SYM_GET_SUBFEATURE)
      case Err(e) => Err(FromLoading(e))
      case Ok(_) =>
        var p := lib.inner.api.subfeatureOfType(chip.addr, raw.addr, type_);
        match PtrToRef(p, SUBFEATURE_ALIGN)
        case Ok(None) => Ok(None)
        case Ok(Some(sub)) => Ok(Some(Subfeature(lib, chip, sub)))
    }

    /** `get_subfeature(index)`: one step on a copy of the cursor; the raw record, not a `Subfeature`. */
    function GetSubfeature(index: Int32): (r: Result<Option<Ref<SubfeatureRec>>, Error>)
      requires TableOk(SubfeatureTable(lib, chip, raw), SUBFEATURE_ALIGN)
      ensures SYM_GET_ALL_SUBFEATURES !in lib.inner.api.exports ==>
        r == Err(Loading(SymbolNotFound(SYM_GET_ALL_SUBFEATURES)))
      ensures SYM_GET_ALL_SUBFEATURES in lib.inner.api.exports ==>
        && r.Ok?
        && (r.value.None? <==> Walk(SubfeatureTable(lib, chip, raw), index) == [])
        && (r.value.Some? ==> r.value.value == Walk(SubfeatureTable(lib, chip, raw), index)[0])
    {
      match Lookup(lib.inner.api, SYM_GET_ALL_SUBFEATURES)
      case Err(e) => Err(FromLoading(e))
      case Ok(_) =>
        var (p, _) := Step(SubfeatureTable(lib, chip, raw), index);
        match PtrToRef(p, SUBFEATURE_ALIGN)
        case Ok(sub) => Ok(sub)
    }

    /** `get_subfeatures`: an iterator from cursor 0. */
    method GetSubfeatures() returns (r: Result<SubfeatureIterator, Error>)
      ensures r.Err? <==> SYM_GET_ALL_SUBFEATURES !in lib.inner.api.exports
      ensures r.Err? ==> r.error == Loading(SymbolNotFound(SYM_GET_ALL_SUBFEATURES))
      ensures r.Ok? ==> fresh(r.value) && r.value.lib == lib && r.value.chip == chip && r.value.feature == raw
      ensures r.Ok? ==> r.value.index == 0
    {
      var sym := Lookup(lib.inner.api, SYM_GET_ALL_SUBFEATURES);
      if sym.Err? {
        r := Err(FromLoading(sym.error));
      } else {
        var it := new SubfeatureIterator(chip, raw, lib);
        r := Ok(it);
      }
    }

    /** What the two lookups of `get_label_extremely_raw` give, in the order they are made. */
    function LabelSymbols(): (r: Result<(), Error>)
      ensures r.Ok? <==> SYM_GET_LABEL in lib.inner.api.exports && SYM_FREE in lib.inner.api.exports
      ensures SYM_GET_LABEL !in lib.inner.api.exports ==> r == Err(Loading(SymbolNotFound(SYM_GET_LABEL)))
      ensures SYM_GET_LABEL in lib.inner.api.exports && SYM_FREE !in lib.inner.api.exports ==>
        r == Err(Loading(SymbolNotFound(SYM_FREE)))
    {
      match Lookup(lib.inner.api, SYM_GET_LABEL)
      case Err(e) => Err(FromLoading(e))
      case Ok(_) =>
        match Lookup(lib.inner.api, SYM_FREE)
        case Err(e) => Err(FromLoading(e))
        case Ok(_) => Ok(())
    }

    /** The buffer `sensors_get_label` hands out for this feature. */
    function LabelBuffer(): CStrPtr
    {
      lib.inner.api.labelOf(chip.addr, raw.addr)
    }

    /** What `get_label_raw` returns: the label copied up to its NUL, or `None` for a null label. */
    function LabelRaw(): (r: Result<Option<seq<Byte>>, Error>)
      ensures r.Err? <==> LabelSymbols().Err?
      ensures r.Err? ==> r.error == LabelSymbols().error
      ensures r.Ok? ==> (r.value.None? <==> LabelBuffer().Null?)
      ensures r.Ok? && r.value.Some? ==> r.value.value + [0] <= LabelBuffer().pointee && 0 !in r.value.value
    {
      match LabelSymbols()
      case Err(e) => Err(e)
      case Ok(_) => Ok(TryCStr(LabelBuffer()))
    }

    /** `get_label_raw`: copy the label out, then the box frees it; a null label is never freed. Every
        allocation is freed exactly once, so nothing leaks. */
    method GetLabelRaw() returns (r: Result<Option<seq<Byte>>, Error>)
      modifies lib.inner.allocator
      ensures r == LabelRaw()
      ensures var freedNow := if r.Ok? then AddrOf(LabelBuffer()) else [];
        && lib.inner.allocator.allocations == old(lib.inner.allocator.allocations) + freedNow
        && lib.inner.allocator.freed == old(lib.inner.allocator.freed) + freedNow
    {
      var boxed := GetLabelExtremelyRaw(this);
      match boxed
      case Err(e) =>
        r := Err(e);
      case Ok(b) =>
        var p := b.Deref();
        var copy: Option<seq<Byte>>;
        if p.Null? {
          copy := None;
        } else {
          copy := Some(CStrFrom(p.pointee));
        }
        b.Drop();
        r := Ok(copy);
    }

    /** `get_label`: a lookup error, a null label and bytes that are not UTF-8 are told apart. */
    method GetLabel() returns (r: Result<seq<Byte>, GetLabelError>)
      modifies lib.inner.allocator
      ensures r == ClassifyLabel(LabelRaw())
      ensures var freedNow := if LabelSymbols().Ok? then AddrOf(LabelBuffer()) else [];
        && lib.inner.allocator.allocations == old(lib.inner.allocator.allocations) + freedNow
        && lib.inner.allocator.freed == old(lib.inner.allocator.freed) + freedNow
    {
      var raw := GetLabelRaw();
      r := ClassifyLabel(raw);
    }
  }

  /** `get_label_extremely_raw`: both lookups first; only then is the label allocated, and straight into
      a box that will free it. */
  method GetLabelExtremelyRaw(f: Feature) returns (r: Result<GLibCBox<seq<Byte>>, Error>)
    modifies f.lib.inner.allocator
    ensures f.LabelSymbols().Err? ==> r == Err(f.LabelSymbols().error)
    ensures f.LabelSymbols().Err? ==> unchanged(f.lib.inner.allocator)
    ensures r.Ok? <==> f.LabelSymbols().Ok?
    ensures r.Ok? ==> && fresh(r.value) && r.value.Valid() && !r.value.dropped
                      && r.value.ptr == f.LabelBuffer() && r.value.free == f.lib.inner.allocator
    ensures r.Ok? ==> f.lib.inner.allocator.allocations == old(f.lib.inner.allocator.allocations) + AddrOf(f.LabelBuffer())
    ensures f.lib.inner.allocator.freed == old(f.lib.inner.allocator.freed)
  {
    var symbols := f.LabelSymbols();
    if symbols.Err? {
      r := Err(symbols.error);
    } else {
      var buffer := f.lib.inner.SensorsGetLabel(f.chip.addr, f.raw.addr);
      var b := new GLibCBox.FromRaw(buffer, f.lib.inner.allocator);
      r := Ok(b);
    }
  }

  /** The error mapping of `get_label` over the outcome of `get_label_raw`. */
  function ClassifyLabel(raw: Result<Option<seq<Byte>>, Error>): (r: Result<seq<Byte>, GetLabelError>)
    ensures raw.Err? ==> r == Err(LibSensors(raw.error))
    ensures raw == Ok(None) ==> r == Err(GetLabelFailed)
    ensures raw.Ok? && raw.value.Some? && IsUtf8(raw.value.value) ==> r == Ok(raw.value.value)
    ensures raw.Ok? && raw.value.Some? && !IsUtf8(raw.value.value) ==>
      r == Err(LibSensors(Utf8(Utf8Error(ValidUpTo(raw.value.value)))))
  {
    match raw
    case Err(e) => Err(LibSensors(e))
    case Ok(None) => Err(GetLabelFailed)
    case Ok(Some(bytes)) =>
      match FromUtf8(bytes)
      case Ok(s) => Ok(s)
      case Err(e) => Err(LibSensors(Utf8(e)))
  }

  /** A label that libsensors stores as UTF-8 text followed by a NUL comes back as exactly that text. */
  lemma LabelRoundTrip(f: Feature, text: seq<Byte>, rest: seq<Byte>)
    requires SYM_GET_LABEL in f.lib.inner.api.exports && SYM_FREE in f.lib.inner.api.exports
    requires 0 !in text && IsUtf8(text)
    requires f.LabelBuffer().At? && f.LabelBuffer().pointee == text + [0] + rest
    ensures ClassifyLabel(f.LabelRaw()) == Ok(text)
  {
    CStrFromRoundTrip(text, rest);
  }

  /** A null label is reported as `GetLabelFailed`, not as a native error. */
  lemma NullLabelFails(f: Feature)
    requires SYM_GET_LABEL in f.lib.inner.api.exports && SYM_FREE in f.lib.inner.api.exports
    requires f.LabelBuffer().Null?
    ensures ClassifyLabel(f.LabelRaw()) == Err(GetLabelFailed)
  {
  }

  /** `Feature::new`: succeeds exactly when the type code is one of the 13 `FeatureType` discriminants. */
  function NewFeature(lib: Singleton.LibSensors, chip: Ref<ChipName>, raw: Ref<FeatureRec>): (r: Result<Feature, Error>)
    ensures r.Ok? <==> exists t :: Discriminant(t) == raw.target.type_
    ensures r.Err? ==> r.error == UnexpectedWildcard(raw.target.type_)
    ensures r.Ok? ==> r.value.Valid() && r.value.lib == lib && r.value.chip == chip && r.value.raw == raw
  {
    match FromRepr(raw.target.type_)
    case None => Err(UnexpectedWildcard(raw.target.type_))
    case Some(t) => Ok(Feature(lib, chip, raw, t))
  }

  /** `SENSORS_FEATURE_UNKNOWN` is rejected. */
  lemma UnknownFeatureRejected(lib: Singleton.LibSensors, chip: Ref<ChipName>, raw: Ref<FeatureRec>)
    requires raw.target.type_ == SENSORS_FEATURE_UNKNOWN
    ensures NewFeature(lib, chip, raw) == Err(UnexpectedWildcard(SENSORS_FEATURE_UNKNOWN))
  {
    FromReprRejects();
  }

  /** The `sensors_get_all_subfeatures` table of a feature. */
  function SubfeatureTable(lib: Singleton.LibSensors, chip: Ref<ChipName>, feature: Ref<FeatureRec>): seq<Ptr<SubfeatureRec>>
  {
    lib.inner.api.subfeatures(chip.addr, feature.addr)
  }

  /** The subfeatures enumerated from cursor `nr` on. */
  function SubfeatureItems(lib: Singleton.LibSensors, chip: Ref<ChipName>, feature: Ref<FeatureRec>, nr: int): (r: seq<Subfeature>)
    ensures |r| == |Walk(SubfeatureTable(lib, chip, feature), nr)|
  {
    var refs := Walk(SubfeatureTable(lib, chip, feature), nr);
    seq(|refs|, k requires 0 <= k < |refs| => Subfeature(lib, chip, refs[k]))
  }

  /** `get_subfeature(k)` gives the raw record of the `k`-th item of a fresh `get_subfeatures` iterator. */
  lemma GetSubfeatureIsNthItem(f: Feature, k: Int32)
    requires TableOk(SubfeatureTable(f.lib, f.chip, f.raw), SUBFEATURE_ALIGN)
    requires SYM_GET_ALL_SUBFEATURES in f.lib.inner.api.exports
    requires 0 <= k < |SubfeatureItems(f.lib, f.chip, f.raw, 0)|
    ensures f.GetSubfeature(k).Ok? && f.GetSubfeature(k).value.Some?
    ensures Subfeature(f.lib, f.chip, f.GetSubfeature(k).value.value) == SubfeatureItems(f.lib, f.chip, f.raw, 0)[k]
  {
    WalkDrop(SubfeatureTable(f.lib, f.chip, f.raw), 0, k as nat);
  }

  /** Against a table of `n` subfeatures followed by a null, a fresh subfeature iterator yields exactly `n` items. */
  lemma SubfeatureCount(f: Feature, n: nat)
    requires n <= |SubfeatureTable(f.lib, f.chip, f.raw)|
    requires forall i :: 0 <= i < n ==> SubfeatureTable(f.lib, f.chip, f.raw)[i].At?
    requires n == |SubfeatureTable(f.lib, f.chip, f.raw)| || SubfeatureTable(f.lib, f.chip, f.raw)[n].Null?
    ensures |SubfeatureItems(f.lib, f.chip, f.raw, 0)| == n
  {
    WalkCount(SubfeatureTable(f.lib, f.chip, f.raw), n);
  }

  /** `SubfeatureIterator`: walks `sensors_get_all_subfeatures` with its own cursor. */
  class SubfeatureIterator {
    const lib: Singleton.LibSensors
    const chip: Ref<ChipName>
    const feature: Ref<FeatureRec>
    var index: Int32

    constructor (chip: Ref<ChipName>, feature: Ref<FeatureRec>, lib: Singleton.LibSensors)
      ensures this.lib == lib && this.chip == chip && this.feature == feature && index == 0
    {
      this.lib := lib;
      this.chip := chip;
      this.feature := feature;
      index := 0;
    }

    function Table(): seq<Ptr<SubfeatureRec>>
    {
      SubfeatureTable(lib, chip, feature)
    }

    /** The subfeatures still to come. */
    function Remaining(): seq<Subfeature>
      reads this
    {
      SubfeatureItems(lib, chip, feature, index)
    }

    /** `next`: yields the next subfeature, never an error, and `None` once the table reaches a null. */
    method Next() returns (item: Option<Subfeature>)
      requires TableOk(Table(), SUBFEATURE_ALIGN)
      modifies this
      ensures old(Remaining()) == [] ==> item == None && Remaining() == []
      ensures old(Remaining()) != [] ==> item == Some(old(Remaining())[0]) && Remaining() == old(Remaining())[1..]
    {
      var (p, next) := Step(Table(), index);
      index := next;
      match PtrToRef(p, SUBFEATURE_ALIGN)
      case Ok(None) =>
        item := None;
      case Ok(Some(sub)) =>
        item := Some(Subfeature(lib, chip, sub));
    }
  }
}
