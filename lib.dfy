/** The handle's chip enumeration (src/lib.rs). */
module Lib {
  import opened Prelude
  import opened Errors
  import opened Utils
  import opened Native
  import opened Singleton
  import opened Chips

  /** The `sensors_get_detected_chips` table. */
  function ChipTable(lib: Singleton.LibSensors): seq<Ptr<ChipName>>
  {
    lib.inner.api.detectedChips
  }

  /** The native contract of the chip table: enumerable, aligned, and no chip without a prefix. */
  predicate ChipsOk(lib: Singleton.LibSensors)
  {
    && TableOk(ChipTable(lib), CHIP_NAME_ALIGN)
    && forall i :: 0 <= i < |ChipTable(lib)| && ChipTable(lib)[i].At? ==> ChipTable(lib)[i].pointee.prefix.At?
  }

  /** The chips enumerated from cursor `nr` on, each decoded by `Chip::new`. */
  function ChipItems(lib: Singleton.LibSensors, nr: int): (r: seq<Result<Chip, Error>>)
    requires ChipsOk(lib)
    ensures |r| == |Walk(ChipTable(lib), nr)|
  {
    var refs := Walk(ChipTable(lib), nr);
    seq(|refs|, k requires 0 <= k < |refs| => NewChip(lib, refs[k]))
  }

  /** `get_chip(index)`: one call with a copy of the cursor; the chip there, decoded, or `None` past the
      end. */
  function GetChip(lib: Singleton.LibSensors, index: Int32): (r: Result<Option<Chip>, Error>)
    requires ChipsOk(lib)
    ensures SYM_GET_DETECTED_CHIPS !in lib.inner.api.exports ==>
      r == Err(Loading(SymbolNotFound(SYM_GET_DETECTED_CHIPS)))
    ensures SYM_GET_DETECTED_CHIPS in lib.inner.api.exports ==>
      var refs := Walk(ChipTable(lib), index);
      && (refs == [] ==> r == Ok(None))
      && (refs != [] && NewChip(lib, refs[0]).Ok? ==> r == Ok(Some(NewChip(lib, refs[0]).value)))
      && (refs != [] && NewChip(lib, refs[0]).Err? ==> r == Err(NewChip(lib, refs[0]).error))
    ensures r.Ok? && r.value.Some? ==> r.value.value.Valid()
  {
    match Lookup(lib.inner.api, SYM_GET_DETECTED_CHIPS)
    case Err(e) => Err(FromLoading(e))
    case Ok(_) =>
      var (p, _) := Step(ChipTable(lib), index);
      match PtrToRef(p, CHIP_NAME_ALIGN)
      case Ok(None) => Ok(None)
      case Ok(Some(c)) => InvertResOpt(Some(NewChip(lib, c)))
  }

  /** `get_chip(k)` gives the `k`-th item of a fresh `get_chips` iterator. */
  lemma GetChipIsNthItem(lib: Singleton.LibSensors, k: Int32)
    requires ChipsOk(lib) && SYM_GET_DETECTED_CHIPS in lib.inner.api.exports
    requires 0 <= k < |ChipItems(lib, 0)|
    ensures GetChip(lib, k) == InvertResOpt(Some(ChipItems(lib, 0)[k]))
  {
    WalkDrop(ChipTable(lib), 0, k as nat);
  }

  /** `get_chips`: an iterator from cursor 0; the entry point is looked up once, here. */
  method GetChips(lib: Singleton.LibSensors) returns (r: Result<ChipIterator, Error>)
    ensures r.Err? <==> SYM_GET_DETECTED_CHIPS !in lib.inner.api.exports
    ensures r.Err? ==> r.error == Loading(SymbolNotFound(SYM_GET_DETECTED_CHIPS))
    ensures r.Ok? ==> fresh(r.value) && r.value.lib == lib && r.value.index == 0
  {
    var sym := Lookup(lib.inner.api, SYM_GET_DETECTED_CHIPS);
    if sym.Err? {
      r := Err(FromLoading(sym.error));
    } else {
      var it := new ChipIterator(lib);
      r := Ok(it);
    }
  }

  /** `ChipIterator`: walks `sensors_get_detected_chips` with its own cursor. A chip on a wildcard bus is
      an error item, and iteration goes on past it. */
  class ChipIterator {
    const lib: Singleton.LibSensors
    var index: Int32

    constructor (lib: Singleton.LibSensors)
      ensures this.lib == lib && index == 0
    {
      this.lib := lib;
      index := 0;
    }

    /** The items still to come. */
    function Remaining(): seq<Result<Chip, Error>>
      requires ChipsOk(lib)
      reads this
    {
      ChipItems(lib, index)
    }

    /** `next` */
    method Next() returns (item: Option<Result<Chip, Error>>)
      requires ChipsOk(lib)
      modifies this
      ensures old(Remaining()) == [] ==> item == None && Remaining() == []
      ensures old(Remaining()) != [] ==> item == Some(old(Remaining())[0]) && Remaining() == old(Remaining())[1..]
    {
      var (p, next) := Step(ChipTable(lib), index);
      index := next;
      match PtrToRef(p, CHIP_NAME_ALIGN)
      case Ok(None) =>
        item := None;
      case Ok(Some(c)) =>
        item := Some(NewChip(lib, c));
    }
  }

  /** Against a table of `n` chips followed by a null, a fresh iterator yields exactly `n` items. */
  lemma ChipCount(lib: Singleton.LibSensors, n: nat)
    requires ChipsOk(lib) && n <= |ChipTable(lib)|
    requires forall i :: 0 <= i < n ==> ChipTable(lib)[i].At?
    requires n == |ChipTable(lib)| || ChipTable(lib)[n].Null?
    ensures |ChipItems(lib, 0)| == n
  {
    WalkCount(ChipTable(lib), n);
  }
}
