# libsensors-rs, modelled in Dafny

A model of libsensors-rs, the Rust binding to the Linux hardware-monitoring library libsensors, together
with proofs about it. The binding loads `libsensors.so.5` at run time and wraps its C interface. The
model covers:

- return-code translation and the error taxonomy;
- the pointer helpers, and the box that frees label buffers;
- the decoders that reject libsensors' wildcard and unknown codes (bus types, bus ids, feature types);
- the three cursor-driven iterators (chips, features, subfeatures);
- the capability bits and the `GenericSubfeature` code table;
- the process-wide "at most one handle" flag behind `LibSensors::init`, `close` and `Drop`.

The loaded library is a mock, the `Api` value in `ffi.dfy`:

- whether the file loads;
- which symbols it exports;
- what `sensors_init` returns;
- one table per enumeration entry point, read by cursor;
- functions for labels, adapter names, values and subfeature lookups.

The class `Native` counts the calls that change libsensors' state (`sensors_init`, `sensors_cleanup`). Its
`Allocator` logs every label buffer handed out and every `free`. Records are identified by their
addresses, and a pointer is `Null` or `At(addr, pointee)`. A C string is a byte sequence containing a NUL.

Module layout follows the crate:

- `Errors`: `error.rs`.
- `Utils`: `utils.rs`, plus `try_cstr` and `invert_res_opt`.
- `Utf8`: the standard library's UTF-8 check, used by `get_label`.
- `Native`: the constants and records of libsensors and the mock.
- `Singleton`: the handle and its flag, from `lib.rs`.
- `Lib`: the chip enumeration, from `lib.rs`.
- `Chips`: `chips.rs`.
- `FeatureKinds` and `Features`: `feature.rs`.
- `Subfeatures`: `subfeature.rs`.

`FeatureType` sits in its own module, and the handle apart from chip enumeration. Dafny modules may not
import each other in a cycle, and the crate's modules do.

A Rust panic (`unwrap`/`expect` on a misaligned pointer, a chip whose prefix is null) is modelled as a
precondition: the native contract the binding relies on.

An iterator is a class with a cursor field. Its `Remaining()` lists the items still to come, computed
from the mock table by `Walk`. Each `Next` yields `Remaining()[0]` and drops it, or yields `None` once the
table reaches a null.

## Model

| member | source | states |
|---|---|---|
| Errors.ConvertCint | src/error.rs:13-19 | a negative code is `Err` carrying that code; every other code, zero included, is `Ok` with the same value |
| Errors.ConvertCintLossless | src/error.rs:13-19 | the C code can be recovered from the converted result; `Ok(0)` exactly for code 0 |
| Errors.FromSensors | src/error.rs:44-48 | gives `Error::Sensors` carrying the same native code |
| Errors.FromLoading | src/error.rs:49-53 | gives `Error::Loading` with the same loader error, never `Sensors` or `UnexpectedWildcard` |
| Errors.FromConversionsDistinct | src/error.rs:28-53 | the two `From` conversions never coincide and each is injective |
| Utils.PtrToRef | src/utils.rs:14-24 | `Ok(None)` exactly for null; `Err(())` exactly for a non-null misaligned pointer; otherwise a reference to the same address and pointee |
| Utils.PtrToRefAsPtr | src/utils.rs:19-22 | an aligned reference turned into a pointer converts back to itself |
| Utils.GLibCBox.FromRaw | src/utils.rs:37-39 | stores the pointer and the allocator unchanged; `Deref` gives back the pointer; nothing freed yet |
| Utils.GLibCBox.Drop | src/utils.rs:41-49 | frees a non-null pointer exactly once, at its own address, and a null pointer never; allocations untouched |
| Utils.CStrFrom | src/feature.rs:116-118 | the bytes before the first NUL: NUL-free, a prefix of memory, followed by the NUL |
| Utils.CStrFromRoundTrip | src/feature.rs:103 | reading back a NUL-free string written with its terminator gives the string, whatever follows |
| Utils.TryCStr | src/chips.rs:47 | `None` exactly for null; otherwise the NUL-free prefix of the pointee |
| Utils.InvertResOpt | src/lib.rs:94-97 | `Err` exactly for `Some(Err)`, `Ok(None)` exactly for `None` |
| Utils.InvertResOptBijective | src/chips.rs:62-64 | `invert_res_opt` and `transpose` are inverse to each other in both directions |
| Utf8.SequenceLength | src/feature.rs:112 | a well-formed sequence is 1 to 4 bytes inside the input; an ASCII byte is a sequence of one |
| Utf8.FromUtf8 | src/feature.rs:112-113 | `Ok` with the same bytes exactly when they are UTF-8; otherwise the error reports the valid prefix length, short of the end |
| Utf8.ValidPrefixIsUtf8 | src/feature.rs:113 | the prefix reported as valid is itself well-formed UTF-8 |
| Utf8.AsciiIsUtf8 | src/feature.rs:112 | bytes all below 0x80 are well-formed UTF-8 |
| Native.Lookup | src/lib.rs:110-148 | a symbol resolves exactly when the library exports it; otherwise `SymbolNotFound` with its name |
| Native.Walk | src/lib.rs:172-175 | the items enumerated from a cursor are the consecutive non-null table entries from there |
| Native.Step | src/lib.rs:173 | one native call against the index-cursor mock (see Left out): null with the cursor unchanged at the end, else the next item with the cursor advanced by one past it |
| Native.WalkUpTo | src/lib.rs:172-175 | against non-null entries `nr` to `n` then a null, enumeration from cursor `nr` yields exactly those entries, whatever precedes `nr` (so also after an earlier null) |
| Native.WalkDrop | src/lib.rs:172-175 | advancing the cursor `k` times drops exactly the first `k` items |
| Native.WalkCount | src/lib.rs:164-175 | a fresh enumeration over `n` entries then a null yields exactly `n` items |
| Native.Native.SensorsInit | src/lib.rs:68 | returns the library's init code and counts one `sensors_init` call |
| Native.Native.SensorsCleanup | src/lib.rs:82-85 | counts one `sensors_cleanup` call and leaves the `sensors_init` count as it was |
| Native.Native.SensorsGetLabel | src/feature.rs:84 | returns the label buffer and logs its allocation; frees nothing |
| Singleton.FromError | src/lib.rs:20-24 | wraps the error in `LoadingError::Init` unchanged |
| Singleton.InitStep | src/lib.rs:59-80 | with the flag clear: `AlreadyInitialised` and the flag stays clear; otherwise success exactly when the library loads, `sensors_init` resolves and returns a non-negative code; the flag is restored only for a negative code, with the matching `Init(Sensors(code))` error; an unloadable library is `LibraryNotFound` and a missing `sensors_init` is `Init(Loading(SymbolNotFound("sensors_init")))` |
| Singleton.LibSensors.Init | src/lib.rs:59-80 | agrees with `InitStep` on the flag and the result; a fresh live handle on success; `sensors_init` is called only when the flag was available and the symbol loaded; no cleanup |
| Singleton.LibSensors.CloseInner | src/lib.rs:82-85 | calls `sensors_cleanup` once exactly when it resolves; otherwise `SymbolNotFound` |
| Singleton.LibSensors.Drop | src/lib.rs:150-156 | one cleanup call when the symbol resolves; a lookup failure is swallowed; the flag is not touched |
| Singleton.LibSensors.Close | src/lib.rs:87-89 | returns the cleanup lookup's result, and with the drop of the consumed handle calls `sensors_cleanup` twice |
| Singleton.InitCloseInit | src/lib.rs:59-89 | after a successful `init` and a `close`, the next `init` returns `AlreadyInitialised`; cleanup ran twice |
| Singleton.TakenStaysTaken | src/lib.rs:63 | once the flag is clear, no sequence of calls sets it again and every `init` in it is refused |
| Singleton.SuccessfulInitIsFinal | src/lib.rs:82-89 | after a successful `init`, every later `init` in any sequence of `init`/`close`/`Drop` returns `AlreadyInitialised` |
| Singleton.LoadFailureKeepsSlot | src/lib.rs:64-76 | a library or `sensors_init` that fails to load keeps the flag taken, so the next `init` is refused though no handle exists |
| Singleton.NativeInitFailureFreesSlot | src/lib.rs:67-74 | a negative `sensors_init` code returns `Init(Sensors(code))` and the next `init` starts from an available flag |
| Singleton.CloseKeepsSlotTaken | src/lib.rs:82-89 | as written, `init`, `close`, `init` refuses the second `init` although no handle is left |
| Singleton.StepIntended | src/lib.rs:53-54 | corrected semantics: only a live handle blocks `init`; a successful `init` takes the slot and adds a handle, a failed one leaves the slot as it was; releasing a live handle gives the slot back |
| Singleton.IntendedAtMostOneHandle | src/lib.rs:53-54 | under the corrected release, no sequence of calls ever has two live handles, and none while the slot is available |
| Singleton.IntendedCloseFreesSlot | src/lib.rs:53-54 | under the corrected release, `init` then `close` returns to the starting state |
| Singleton.IntendedInitFailureFreesSlot | src/lib.rs:53-54 | under the corrected semantics, an `init` that fails for any reason returns to the free slot, so the next `init` behaves like the first |
| FeatureKinds.FromRepr | src/feature.rs:142-158 | `Some(t)` only with `t`'s discriminant equal to the code; `None` only when no variant has that discriminant |
| FeatureKinds.FromReprRoundTrip | src/feature.rs:142-158 | every variant decodes from its own discriminant, so the 13 discriminants are distinct |
| FeatureKinds.FromReprRejects | src/feature.rs:152-157 | `SENSORS_FEATURE_UNKNOWN` and the codes in the gaps are not feature types |
| Subfeatures.Subfeature.GetName | src/subfeature.rs:17-24 | `None` exactly for a null name pointer, else the C string it points to |
| Subfeatures.Subfeature.GetValue | src/subfeature.rs:26-36 | missing symbol is `Err(Loading)`; a negative code `c` is `Err(Sensors(c))`; otherwise the value the native call wrote, or the NaN it started as |
| Subfeatures.Subfeature.SetValue | src/subfeature.rs:38-44 | missing symbol is `Err(Loading)`; `Ok(())` exactly for a non-negative code, else `Err(Sensors)` with that code |
| Subfeatures.Subfeature.CanGet | src/subfeature.rs:46-48 | true exactly when the read bit is already set in the flags (or-ing it in changes nothing) |
| Subfeatures.Subfeature.CanSet | src/subfeature.rs:50-52 | true exactly when the write bit is already set in the flags (or-ing it in changes nothing) |
| Subfeatures.CapabilityFixtures | src/subfeature.rs:46-52 | no flags: neither; `R`: get only; `W`: set only; `R\|W`: both |
| Subfeatures.CapabilityBits | src/subfeature.rs:46-52 | for any two subfeatures: agreeing on the read (write) bit means agreeing on `can_get` (`can_set`), whatever the other bits |
| Subfeatures.ReadBitDecides | src/subfeature.rs:46-52 | setting the read bit makes `can_get` hold, clearing it makes it fail; `can_set` is unchanged either way |
| Subfeatures.WriteBitDecides | src/subfeature.rs:46-52 | setting the write bit makes `can_set` hold, clearing it makes it fail; `can_get` is unchanged either way |
| Subfeatures.GenericSubfeature.ToPrimitive | src/subfeature.rs:65-103 | total; `Input` has a code exactly for In, Fan, Temp, Power, Energy, Current, Humidity; `Min`/`Max` exactly for In, Fan, Temp, Power, Current |
| Subfeatures.TempInputIsFanInput | src/subfeature.rs:73-74 | as written, the Temp input code equals the Fan input code and does not belong to the Temp feature |
| Subfeatures.ToPrimitiveMatchesFeature | src/subfeature.rs:70-101 | apart from the Temp input, every code of the table as written has the feature type asked for as its high byte, so distinct feature types get distinct codes |
| Subfeatures.GenericSubfeature.ToPrimitiveIntended | src/subfeature.rs:70-81 | the corrected table is defined on exactly the same pairs |
| Subfeatures.IntendedMatchesFeature | src/subfeature.rs:65-103 | in the corrected table, every code's high byte is the feature type's discriminant |
| Subfeatures.IntendedIsInjective | src/subfeature.rs:65-103 | in the corrected table, distinct (kind, feature type) pairs never share a code |
| Features.NewFeature | src/feature.rs:35-40 | succeeds exactly when the type code is a `FeatureType` discriminant, else `UnexpectedWildcard(type code)` |
| Features.UnknownFeatureRejected | src/feature.rs:38 | a record of type `SENSORS_FEATURE_UNKNOWN` is rejected with that code |
| Features.Feature.GetType | src/feature.rs:42-44 | the variant whose discriminant is the record's type code |
| Features.Feature.GetName | src/feature.rs:116-118 | the record's name up to its NUL |
| Features.Feature.GetSubfeatureByType | src/feature.rs:46-54 | missing symbol is `Err(Loading)`; `Ok(None)` exactly for a null result, else the subfeature at that address |
| Features.Feature.GetSubfeature | src/feature.rs:56-62 | missing symbol is `Err(Loading)`; else the entry at the given cursor, or `None` past the end; the caller's cursor is not advanced |
| Features.GetSubfeatureIsNthItem | src/feature.rs:56-62 | with the index cursor of the mock (see Left out), `get_subfeature(k)` is the `k`-th item of a fresh subfeature iterator |
| Features.Feature.GetSubfeatures | src/feature.rs:64-68 | missing symbol is `Err(Loading)`; else a fresh iterator at cursor 0 over this feature |
| Features.SubfeatureIterator.Next | src/feature.rs:136-139 | yields the next subfeature and drops it from those remaining, never an error; `None` once the table reaches a null |
| Features.SubfeatureCount | src/feature.rs:128-139 | against `n` subfeatures then a null (in the index-cursor mock), a fresh subfeature iterator yields exactly `n` items |
| Features.Feature.LabelSymbols | src/feature.rs:78-79 | `sensors_get_label` is looked up before `free`; the first missing one is the error |
| Features.GetLabelExtremelyRaw | src/feature.rs:75-85 | a failed lookup returns its error and allocates nothing; otherwise one allocation, owned by a fresh box over the label pointer; nothing freed |
| Features.Feature.LabelRaw | src/feature.rs:91-106 | lookup error passed on; `None` exactly for a null label; else the label bytes up to the NUL |
| Features.Feature.GetLabelRaw | src/feature.rs:91-106 | returns `LabelRaw`, and every label allocated is freed exactly once, a null one never |
| Features.ClassifyLabel | src/feature.rs:108-114 | lookup errors become `LibSensors(e)`; a null label `GetLabelFailed`; UTF-8 bytes come back unchanged; other bytes `LibSensors(Utf8(valid prefix length))` |
| Features.Feature.GetLabel | src/feature.rs:108-114 | the `get_label` error mapping over `get_label_raw`, with the label freed exactly when it was allocated |
| Features.LabelRoundTrip | src/feature.rs:108-114 | a UTF-8 label stored with its NUL comes back as exactly that text |
| Features.NullLabelFails | src/feature.rs:111 | a null label is `GetLabelFailed` |
| Chips.BusTypeTryFrom | src/chips.rs:109-126 | `Ok` exactly for codes 0 to 8, with the variant of that code; every other value, the type wildcard included, is `UnexpectedWildcard(value)` |
| Chips.BusTypeRoundTrip | src/chips.rs:109-126 | every bus type decodes from its own code |
| Chips.BusTypeAnyRejected | src/chips.rs:123 | `SENSORS_BUS_TYPE_ANY` is rejected with its value |
| Chips.BusIdToRaw | src/chips.rs:130-133 | keeps the bus number and gives a concrete type code |
| Chips.BusIdTryFrom | src/chips.rs:134-146 | a wildcard bus number is `UnexpectedWildcard(nr)` for any type; otherwise success exactly for a known type, else `UnexpectedWildcard(type)`; success maps back to the same raw id |
| Chips.BusIdRoundTrip | src/chips.rs:134-146 | a bus id without wildcards survives the trip through `sensors_bus_id` |
| Chips.BusNrCheckedFirst | src/chips.rs:138-140 | when both fields are wildcards, the bus number is reported |
| Chips.NewChip | src/chips.rs:25-34 | with a non-null prefix, succeeds exactly when the bus id decodes, passing on its error otherwise; the chip keeps the prefix string and decoded bus |
| Chips.Chip.GetPrefix | src/chips.rs:50-52 | the record's prefix up to its NUL |
| Chips.Chip.GetBusId | src/chips.rs:54-56 | the decoded bus id of the record, never a wildcard |
| Chips.Chip.GetName | src/chips.rs:36-48 | missing symbol is `Err(Loading)`; `Ok(None)` exactly for a null adapter name; else that string |
| Chips.GetFeatureRaw | src/chips.rs:7-15 | one native call: `None` with the cursor unchanged past the end, else `Feature::new` of the next entry with the cursor advanced |
| Chips.Chip.GetFeature | src/chips.rs:58-66 | missing symbol is `Err(Loading)`; else `Ok(None)` past the end, the decoded feature, or its decode error; the caller's cursor is not advanced |
| Chips.GetFeatureIsNthItem | src/chips.rs:58-66 | with the index cursor of the mock (see Left out), `get_feature(k)` is the `k`-th item of a fresh feature iterator |
| Chips.Chip.GetFeatures | src/chips.rs:68-72 | missing symbol is `Err(Loading)`; else a fresh iterator at cursor 0 over this chip |
| Chips.FeatureIterator.Next | src/chips.rs:89-91 | yields the next item and drops it from those remaining; an undecodable feature is an `Err` item and iteration goes on; `None` at the first null |
| Chips.FeatureCount | src/chips.rs:81-91 | against `n` features then a null (in the index-cursor mock), a fresh feature iterator yields exactly `n` items |
| Lib.GetChip | src/lib.rs:91-98 | missing symbol is `Err(Loading)`; else `Ok(None)` past the end, the chip `Chip::new` builds, or its error; the caller's cursor is not advanced |
| Lib.GetChipIsNthItem | src/lib.rs:91-98 | `get_chip(k)` is the `k`-th item of a fresh chip iterator |
| Lib.GetChips | src/lib.rs:100-104 | missing symbol is `Err(Loading)`; else a fresh iterator at cursor 0 |
| Lib.ChipIterator.Next | src/lib.rs:172-175 | yields the next item and drops it from those remaining; a chip on a wildcard bus is an `Err` item and iteration goes on; `None` at the first null |
| Lib.ChipCount | src/lib.rs:164-175 | against `n` chips then a null, a fresh iterator yields exactly `n` items |

## Left out

- Concurrency: the flag is one sequential boolean, so the `AcqRel`/`Relaxed` orderings and cross-thread races are not modelled.
- `c_double` readings are opaque 64-bit patterns passed through unchanged. `NaN` is the bit pattern of the initial slot. No floating-point arithmetic is modelled.
- `libloading` is reduced to the `Api` mock: whether the file loads and which names resolve. Its error values carry only the missing file or symbol name.
- Raw memory and lifetimes: pointers are `Null` or an address with its pointee. A misaligned pointer behind `unwrap`/`expect`, and a null chip prefix behind `expect`, are panics. They appear as preconditions rather than as modelled behaviour.
- `Display` impls, `warn!` logging (the message `Drop` logs on a failed lookup) and `sensors_strerror` are string formatting or output.
- src/ffi.rs, build.rs and src/main.rs are bindgen glue, build glue and a demo CLI. They are not part of this model. Their constants appear as the libsensors values listed in `ffi.dfy`. The subfeature codes follow libsensors' scheme of the feature type shifted left by 8 plus an offset.
- The handle's documentation implies that only a live instance blocks `init`, so a closed handle should make room for a new one. The code never restores the flag in `close` or `Drop`. `LibSensors.Close`, `LibSensors.Drop` and the trace lemmas follow the code. The corrected release is stated separately (see Findings).
- A library or `sensors_init` symbol that fails to load also keeps the slot taken, although no instance exists. The same reading of the documentation covers this case, and so does the code's own restore of the flag on a failed `sensors_init`, which the early returns skip. `LibSensors.Init` and the trace lemmas follow the code (`LoadFailureKeepsSlot`); the corrected semantics `StepIntended` frees the slot on every failed `init` (see Findings).
- Native.Step, Chips.GetFeatureIsNthItem, Features.GetSubfeatureIsNthItem: the enumeration mock reads the opaque cursor as a position in its table that advances by exactly one per item, stays put at a null, and starts every list at 0. libsensors gives no such promise: `sensors_get_features` may skip ignored features, and `sensors_get_all_subfeatures` indexes from the feature's first subfeature in a chip-wide table. These lemmas, and the "`k`-th item" reading of `get_feature(k)` and `get_subfeature(k)`, hold of the mock only. The mock also answers a negative or out-of-range cursor with a null. That is a choice of the mock: the source passes the caller's index unchecked (`get_chip(-1)` hands -1 to `sensors_get_detected_chips`), and what libsensors does with it is not modelled.
- `TableOk` and `ChipsOk` require every table entry to be aligned, and every chip to have a non-null prefix. The source `expect`s this only of the one entry it dereferences. The model states it for the whole table, as a contract on the native side.
- `close` followed by the drop of the consumed handle calls `sensors_cleanup` twice. The model records this as written and does not treat it as a defect.
- `feature.rs` converts a `Utf8Error` into the crate's `Error`, but error.rs declares no such variant or `From` impl. The model adds `Error::Utf8` carrying the valid prefix length, as the evident intent.
- `lib.rs` declares `pub mod features` while the file is `feature.rs`; the model names the module `Features`.
- `try_cstr` and `invert_res_opt` are imported from utils.rs but not defined there. They are modelled by their evident meaning.
- `Chip::new`, `Feature::new` and `get_type` state the invariant the private fields keep as `Valid()`. The getters require it, because every value the crate builds satisfies it.
- The copy made by `get_label_raw` is modelled as the byte sequence itself. Ownership of the copied `CString` is not tracked.

## Findings

| source | as written | input that shows it | evidently intended | confidence | as-written member | corrected member |
|---|---|---|---|---|---|---|
| src/subfeature.rs:74 | `to_primitive(Input, Temp)` returns `SENSORS_SUBFEATURE_FAN_INPUT` | `GenericSubfeature::Input.to_primitive(FeatureType::Temp)` gives 0x100, the same code as for `Fan`; asking a temperature feature for it finds no such subfeature | `SENSORS_SUBFEATURE_TEMP_INPUT` (0x200), so every code belongs to its feature type | not executed | Subfeatures.TempInputIsFanInput | Subfeatures.IntendedMatchesFeature |
| src/lib.rs:87-89 | neither `close` nor `Drop` stores `true` back into `LIBSENSORS_DOES_NOT_EXIST` | a successful `init`, then `close`, then `init`: the second `init` returns `AlreadyInitialised` with no handle alive | releasing the handle gives the slot back, so at most one handle is alive and a closed one makes room for the next | not executed | Singleton.CloseKeepsSlotTaken | Singleton.IntendedAtMostOneHandle |
| src/lib.rs:64-76 | a missing library returns before the flag is restored, and the `?` on the `sensors_init` lookup skips the restore in `inspect_err` | `init` with a library that does not load, then `init` with one that does: the second returns `AlreadyInitialised` with no handle alive | every failed `init` gives the slot back, as a failed `sensors_init` call already does | not executed | Singleton.LoadFailureKeepsSlot | Singleton.IntendedInitFailureFreesSlot |
