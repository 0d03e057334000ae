/** The native side: libsensors' constants and record layouts, and a mock of the loaded library whose
    entry points answer from fixed tables. */
module Native {
  import opened Prelude
  import opened Errors
  import opened Utils

  // Bus types and bus-number wildcards (`SENSORS_BUS_*`).
  const SENSORS_BUS_TYPE_ANY: Int16 := -1
  const SENSORS_BUS_TYPE_I2C: Int16 := 0
  const SENSORS_BUS_TYPE_ISA: Int16 := 1
  const SENSORS_BUS_TYPE_PCI: Int16 := 2
  const SENSORS_BUS_TYPE_SPI: Int16 := 3
  const SENSORS_BUS_TYPE_VIRTUAL: Int16 := 4
  const SENSORS_BUS_TYPE_ACPI: Int16 := 5
  const SENSORS_BUS_TYPE_HID: Int16 := 6
  const SENSORS_BUS_TYPE_MDIO: Int16 := 7
  const SENSORS_BUS_TYPE_SCSI: Int16 := 8
  const SENSORS_BUS_NR_ANY: Int16 := -1
  const SENSORS_BUS_NR_IGNORE: Int16 := -2

  // Subfeature capability bits.
  const SENSORS_MODE_R: bv32 := 1
  const SENSORS_MODE_W: bv32 := 2

  // `sensors_feature_type`
  const SENSORS_FEATURE_IN: Uint32 := 0x00
  const SENSORS_FEATURE_FAN: Uint32 := 0x01
  const SENSORS_FEATURE_TEMP: Uint32 := 0x02
  const SENSORS_FEATURE_POWER: Uint32 := 0x03
  const SENSORS_FEATURE_ENERGY: Uint32 := 0x04
  const SENSORS_FEATURE_CURR: Uint32 := 0x05
  const SENSORS_FEATURE_HUMIDITY: Uint32 := 0x06
  const SENSORS_FEATURE_MAX_MAIN: Uint32 := 0x07
  const SENSORS_FEATURE_VID: Uint32 := 0x10
  const SENSORS_FEATURE_INTRUSION: Uint32 := 0x11
  const SENSORS_FEATURE_MAX_OTHER: Uint32 := 0x12
  const SENSORS_FEATURE_BEEP_ENABLE: Uint32 := 0x18
  const SENSORS_FEATURE_MAX: Uint32 := 0x19
  const SENSORS_FEATURE_UNKNOWN: Uint32 := 0x7FFF_FFFF

  // `sensors_subfeature_type`: each code is its feature type shifted left by 8, plus an offset.
  const SENSORS_SUBFEATURE_IN_INPUT: Uint32 := 0x000
  const SENSORS_SUBFEATURE_IN_MIN: Uint32 := 0x001
  const SENSORS_SUBFEATURE_IN_MAX: Uint32 := 0x002
  const SENSORS_SUBFEATURE_FAN_INPUT: Uint32 := 0x100
  const SENSORS_SUBFEATURE_FAN_MIN: Uint32 := 0x101
  const SENSORS_SUBFEATURE_FAN_MAX: Uint32 := 0x102
  const SENSORS_SUBFEATURE_TEMP_INPUT: Uint32 := 0x200
  const SENSORS_SUBFEATURE_TEMP_MAX: Uint32 := 0x201
  const SENSORS_SUBFEATURE_TEMP_MIN: Uint32 := 0x203
  const SENSORS_SUBFEATURE_POWER_INPUT: Uint32 := 0x303
  const SENSORS_SUBFEATURE_POWER_MAX: Uint32 := 0x308
  const SENSORS_SUBFEATURE_POWER_MIN: Uint32 := 0x30A
  const SENSORS_SUBFEATURE_ENERGY_INPUT: Uint32 := 0x400
  const SENSORS_SUBFEATURE_CURR_INPUT: Uint32 := 0x500
  const SENSORS_SUBFEATURE_CURR_MIN: Uint32 := 0x501
  const SENSORS_SUBFEATURE_CURR_MAX: Uint32 := 0x502
  const SENSORS_SUBFEATURE_HUMIDITY_INPUT: Uint32 := 0x600

  /** Alignment of the records below: each starts with a pointer (LP64). */
  const CHIP_NAME_ALIGN: nat := 8
  const FEATURE_ALIGN: nat := 8
  const SUBFEATURE_ALIGN: nat := 8

  /** `sensors_bus_id` */
  datatype BusIdRaw = BusIdRaw(type_: Int16, nr: Int16)

  /** `sensors_chip_name` */
  datatype ChipName = ChipName(prefix: CStrPtr, bus: BusIdRaw, addr: Int32, path: CStrPtr)

  /** `sensors_feature` */
  datatype FeatureRec = FeatureRec(name: CStrPtr, number: Int32, type_: Uint32)

  /** `sensors_subfeature` */
  datatype SubfeatureRec = SubfeatureRec(name: CStrPtr, number: Int32, type_: Uint32, flags: bv32)

  /** A `c_double` reading, kept as its IEEE-754 bit pattern and passed through untouched. */
  type Double = bv64

  /** `c_double::NAN` */
  const NAN: Double := 0x7FF8_0000_0000_0000

  // The file the library is loaded from and the names looked up in it.
  const LIBRARY_FILE := "libsensors.so.5"
  const SYM_INIT := "sensors_init"
  const SYM_CLEANUP := "sensors_cleanup"
  const SYM_FREE := "free"
  const SYM_GET_ADAPTER_NAME := "sensors_get_adapter_name"
  const SYM_GET_LABEL := "sensors_get_label"
  const SYM_GET_VALUE := "sensors_get_value"
  const SYM_SET_VALUE := "sensors_set_value"
  const SYM_GET_DETECTED_CHIPS := "sensors_get_detected_chips"
  const SYM_GET_FEATURES := "sensors_get_features"
  const SYM_GET_ALL_SUBFEATURES := "sensors_get_all_subfeatures"
  const SYM_GET_SUBFEATURE := "sensors_get_subfeature"

  /** How the mocked libsensors behaves. Records are told apart by their addresses. */
  datatype Api = Api(
    loadable: bool,                                             // `Library::new` finds the file
    exports: set<string>,                                       // names `Library::get` resolves
    initCode: Int32,                                            // `sensors_init(NULL)`
    detectedChips: seq<Ptr<ChipName>>,                          // `sensors_get_detected_chips`, by cursor
    features: nat -> seq<Ptr<FeatureRec>>,                      // `sensors_get_features`, by chip
    subfeatures: (nat, nat) -> seq<Ptr<SubfeatureRec>>,         // `sensors_get_all_subfeatures`, by chip and feature
    subfeatureOfType: (nat, nat, Uint32) -> Ptr<SubfeatureRec>, // `sensors_get_subfeature`
    adapterName: BusIdRaw -> CStrPtr,                           // `sensors_get_adapter_name`
    labelOf: (nat, nat) -> CStrPtr,                               // `sensors_get_label`, a fresh allocation
    getValue: (nat, Int32) -> (Int32, Option<Double>),          // `sensors_get_value`: code, and what it wrote
    setValue: (nat, Int32, Double) -> Int32)                    // `sensors_set_value`

  /** A resolved symbol; what calling it does is given by the `Api`. */
  datatype Symbol = Symbol(name: string)

  /** `Library::get` */
  function Lookup(api: Api, name: string): (r: Result<Symbol, LoadError>)
    ensures r.Ok? <==> name in api.exports
    ensures r.Ok? ==> r.value.name == name
    ensures r.Err? ==> r.error == SymbolNotFound(name)
  {
    if name in api.exports then Ok(Symbol(name)) else Err(SymbolNotFound(name))
  }

  /** The entries an enumeration yields from cursor `nr` on: those before the first null. */
  function Walk<T>(table: seq<Ptr<T>>, nr: int): (refs: seq<Ref<T>>)
    ensures forall k :: 0 <= k < |refs| ==> 0 <= nr + k < |table| && table[nr + k] == AsPtr(refs[k])
    decreases |table| - nr
  {
    if 0 <= nr < |table| && table[nr].At? then
      var rest := Walk(table, nr + 1);
      var refs := [Ref(table[nr].addr, table[nr].pointee)] + rest;
      assert AsPtr(refs[0]) == table[nr];
      assert forall k :: 0 < k < |refs| ==> refs[k] == rest[k - 1] && table[(nr + 1) + (k - 1)] == AsPtr(rest[k - 1]);
      refs
    else []
  }

  /** The native contract of an enumeration table: not too long for a `c_int` cursor, and aligned. */
  predicate TableOk<T>(table: seq<Ptr<T>>, align: nat)
  {
    && align > 0
    && |table| < 0x7FFF_FFFF
    && forall i :: 0 <= i < |table| && table[i].At? ==> table[i].addr % align == 0
  }

  /** One call of an enumeration entry point with cursor `nr`: it returns the next entry and advances the
      cursor past it, or returns null and leaves the cursor alone. */
  function Step<T>(table: seq<Ptr<T>>, nr: Int32): (r: (Ptr<T>, Int32))
    requires |table| < 0x7FFF_FFFF
    ensures Walk(table, nr) == [] ==> r == (Null, nr)
    ensures Walk(table, nr) != [] ==>
      && r.0 == AsPtr(Walk(table, nr)[0])
      && r.1 == nr + 1
      && Walk(table, r.1) == Walk(table, nr)[1..]
  {
    if 0 <= nr < |table| && table[nr].At? then (table[nr], nr + 1) else (Null, nr)
  }

  /** Against non-null entries from `nr` up to `n` followed by a null (or by nothing), enumeration from
      cursor `nr` yields exactly those entries, whatever comes before `nr`. */
  lemma {:induction false} WalkUpTo<T>(table: seq<Ptr<T>>, n: nat, nr: nat)
    requires nr <= n <= |table|
    requires forall i :: nr <= i < n ==> table[i].At?
    requires n == |table| || table[n].Null?
    ensures |Walk(table, nr)| == n - nr
    ensures forall k :: 0 <= k < n - nr ==> AsPtr(Walk(table, nr)[k]) == table[nr + k]
    decreases n - nr
  {
    if nr < n {
      WalkUpTo(table, n, nr + 1);
    }
  }

  /** Advancing the cursor `k` times drops exactly the first `k` entries: the item at cursor `k` is the
      `k`-th item enumerated from cursor 0. */
  lemma {:induction false} WalkDrop<T>(table: seq<Ptr<T>>, nr: int, k: nat)
    requires k <= |Walk(table, nr)|
    ensures Walk(table, nr + k) == Walk(table, nr)[k..]
    decreases k
  {
    if k > 0 {
      assert Walk(table, nr)[1..] == Walk(table, nr + 1);
      WalkDrop(table, nr + 1, k - 1);
    }
  }

  /** The same from cursor 0: a fresh iterator yields exactly `n` items. */
  lemma WalkCount<T>(table: seq<Ptr<T>>, n: nat)
    requires n <= |table|
    requires forall i :: 0 <= i < n ==> table[i].At?
    requires n == |table| || table[n].Null?
    ensures |Walk(table, 0)| == n
  {
    WalkUpTo(table, n, 0);
  }

  /** The loaded libsensors: its behaviour, the allocator its labels come from, and a count of the calls
      that change its state. */
  class Native {
    const api: Api
    const allocator: Allocator
    var initCalls: nat
    var cleanupCalls: nat

    constructor (api: Api, allocator: Allocator)
      ensures this.api == api && this.allocator == allocator
      ensures initCalls == 0 && cleanupCalls == 0
    {
      this.api := api;
      this.allocator := allocator;
      initCalls, cleanupCalls := 0, 0;
    }

    /** `sensors_init(NULL)` */
    method SensorsInit() returns (code: Int32)
      modifies this
      ensures code == api.initCode
      ensures initCalls == old(initCalls) + 1 && cleanupCalls == old(cleanupCalls)
    {
      code := api.initCode;
      initCalls := initCalls + 1;
    }

    /** `sensors_cleanup()` */
    method SensorsCleanup()
      modifies this
      ensures cleanupCalls == old(cleanupCalls) + 1 && initCalls == old(initCalls)
    {
      cleanupCalls := cleanupCalls + 1;
    }

    /** `sensors_get_label`: a buffer the caller must free. */
    method SensorsGetLabel(chip: nat, feature: nat) returns (buffer: CStrPtr)
      modifies allocator
      ensures buffer == api.labelOf(chip, feature)
      ensures allocator.allocations == old(allocator.allocations) + AddrOf(buffer)
      ensures allocator.freed == old(allocator.freed)
    {
      buffer := api.labelOf(chip, feature);
      if buffer.At? {
        allocator.Allocate(buffer.addr);
      }
    }
  }
}
