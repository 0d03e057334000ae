/** The library handle and the process-wide "no handle exists" flag (src/lib.rs). */
module Singleton {
  import opened Prelude
  import opened Errors
  import opened Native

  /** `LoadingError` */
  datatype LoadingError = Init(error: Error) | AlreadyInitialised

  /** `From<Error> for LoadingError` */
  function FromError(e: Error): (r: LoadingError)
    ensures r.Init? && r.error == e
  {
    Init(e)
  }

  /** Process-wide state: the static `LIBSENSORS_DOES_NOT_EXIST`. */
  class Globals {
    var libsensorsDoesNotExist: bool

    /** `AtomicBool::new(true)` */
    constructor ()
      ensures libsensorsDoesNotExist
    {
      libsensorsDoesNotExist := true;
    }
  }

  /** What `init` leaves in the flag and what it reports (`Ok(())` standing for the new handle), given
      the flag it found and how libsensors behaves. */
  function InitStep(available: bool, api: Api): (step: (bool, Result<(), LoadingError>))
    ensures !available ==> step == (false, Err(AlreadyInitialised))
    ensures step.1.Ok? <==> available && api.loadable && SYM_INIT in api.exports && api.initCode >= 0
    ensures step.0 <==> available && api.loadable && SYM_INIT in api.exports && api.initCode < 0
    ensures available && step.1.Err? ==> step.1.error.Init?
    ensures available && !api.loadable ==> step.1 == Err(Init(Loading(LibraryNotFound(LIBRARY_FILE))))
    ensures available && api.loadable && SYM_INIT !in api.exports ==>
      step.1 == Err(Init(Loading(SymbolNotFound(SYM_INIT))))
    ensures available && api.loadable && SYM_INIT in api.exports && api.initCode < 0 ==>
      step.1 == Err(Init(Sensors(SensorsError(api.initCode))))
  {
    if !available then (false, Err(AlreadyInitialised))
    else if !api.loadable then (false, Err(FromError(FromLoading(LibraryNotFound(LIBRARY_FILE)))))
    else match Lookup(api, SYM_INIT)
      case Err(e) => (false, Err(FromError(FromLoading(e))))
      case Ok(_) =>
        match ConvertCint(api.initCode)
        case Err(e) => (true, Err(FromError(FromSensors(e))))
        case Ok(_) => (false, Ok(()))
  }

  /** `LibSensors`: the loaded library. Chips, features and subfeatures hold a reference to it. */
  class LibSensors {
    const inner: Native
    /** The handle has not been dropped yet. */
    var live: bool

    constructor (inner: Native)
      ensures this.inner == inner && live
    {
      this.inner := inner;
      live := true;
    }

    /** `LibSensors::init`: take the flag with `fetch_and(false)`; only a negative `sensors_init` code puts
        it back. A missing library or `sensors_init` symbol keeps it taken. */
    static method Init(g: Globals, native: Native) returns (r: Result<LibSensors, LoadingError>)
      modifies g, native
      ensures g.libsensorsDoesNotExist == InitStep(old(g.libsensorsDoesNotExist), native.api).0
      ensures r.Ok? == InitStep(old(g.libsensorsDoesNotExist), native.api).1.Ok?
      ensures r.Err? ==> r.error == InitStep(old(g.libsensorsDoesNotExist), native.api).1.error
      ensures r.Ok? ==> fresh(r.value) && r.value.inner == native && r.value.live
      ensures native.initCalls == old(native.initCalls) +
        (if old(g.libsensorsDoesNotExist) && native.api.loadable && SYM_INIT in native.api.exports then 1 else 0)
      ensures native.cleanupCalls == old(native.cleanupCalls)
    {
      var available := g.libsensorsDoesNotExist;
      g.libsensorsDoesNotExist := false;
      if !available {
        return Err(AlreadyInitialised);
      }
      if !native.api.loadable {
        return Err(FromError(FromLoading(LibraryNotFound(LIBRARY_FILE))));
      }
      match Lookup(native.api, SYM_INIT)
      case Err(e) =>
        r := Err(FromError(FromLoading(e)));
      case Ok(_) =>
        var code := native.SensorsInit();
        match ConvertCint(code)
        case Err(e) =>
          g.libsensorsDoesNotExist := true;
          r := Err(FromError(FromSensors(e)));
        case Ok(_) =>
          var lib := new LibSensors(native);
          r := Ok(lib);
    }

    /** `close_inner`: look up `sensors_cleanup` and call it. */
    method CloseInner() returns (r: Result<(), LoadError>)
      modifies inner
      ensures r.Ok? <==> SYM_CLEANUP in inner.api.exports
      ensures r.Err? ==> r.error == SymbolNotFound(SYM_CLEANUP)
      ensures inner.cleanupCalls == old(inner.cleanupCalls) + (if r.Ok? then 1 else 0)
      ensures inner.initCalls == old(inner.initCalls)
    {
      match Lookup(inner.api, SYM_CLEANUP)
      case Err(e) =>
        r := Err(e);
      case Ok(_) =>
        inner.SensorsCleanup();
        r := Ok(());
    }

    /** `Drop`: clean up; a missing symbol is only logged. The flag is not touched. */
    method Drop()
      requires live
      modifies this, inner
      ensures !live
      ensures inner.cleanupCalls == old(inner.cleanupCalls) + (if SYM_CLEANUP in inner.api.exports then 1 else 0)
      ensures inner.initCalls == old(inner.initCalls)
    {
      var logged := CloseInner();
      live := false;
    }

    /** `close(self)`: clean up, then drop the consumed handle, which cleans up a second time. */
    method Close() returns (r: Result<(), LoadError>)
      requires live
      modifies this, inner
      ensures !live
      ensures r.Ok? <==> SYM_CLEANUP in inner.api.exports
      ensures r.Err? ==> r.error == SymbolNotFound(SYM_CLEANUP)
      ensures inner.cleanupCalls == old(inner.cleanupCalls) + (if r.Ok? then 2 else 0)
      ensures inner.initCalls == old(inner.initCalls)
    {
      r := CloseInner();
      Drop();
    }
  }

  /** After a successful `init`, a `close` does not make room for a second one. */
  method InitCloseInit(g: Globals, native: Native) returns (first: Result<LibSensors, LoadingError>,
                                                            second: Result<LibSensors, LoadingError>)
    modifies g, native
    ensures first.Ok? ==> second == Err(AlreadyInitialised)
    ensures first.Ok? ==> native.cleanupCalls == old(native.cleanupCalls) + (if SYM_CLEANUP in native.api.exports then 2 else 0)
  {
    first := LibSensors.Init(g, native);
    if first.Ok? {
      var closed := first.value.Close();
    }
    second := LibSensors.Init(g, native);
  }

  /** A call a program can make against the singleton. */
  datatype Event = InitCall(api: Api) | CloseCall | DropCall

  /** The flag after a sequence of calls. */
  function FlagAfter(available: bool, trace: seq<Event>): bool
    decreases |trace|
  {
    if |trace| == 0 then available
    else
      var next := if trace[0].InitCall? then InitStep(available, trace[0].api).0 else available;
      FlagAfter(next, trace[1..])
  }

  /** What each `init` of a sequence of calls reports, in order. */
  function InitResults(available: bool, trace: seq<Event>): seq<Result<(), LoadingError>>
    decreases |trace|
  {
    if |trace| == 0 then []
    else if trace[0].InitCall? then
      var step := InitStep(available, trace[0].api);
      [step.1] + InitResults(step.0, trace[1..])
    else InitResults(available, trace[1..])
  }

  /** Once the flag is clear, nothing sets it again: every later `init` is refused. */
  lemma {:induction false} TakenStaysTaken(trace: seq<Event>)
    ensures !FlagAfter(false, trace)
    ensures forall k :: 0 <= k < |InitResults(false, trace)| ==> InitResults(false, trace)[k] == Err(AlreadyInitialised)
    decreases |trace|
  {
    if |trace| > 0 {
      TakenStaysTaken(trace[1..]);
    }
  }

  /** After any successful `init`, whatever is called next (`close`, `Drop`, further `init`s), every later
      `init` returns `AlreadyInitialised`. */
  lemma SuccessfulInitIsFinal(available: bool, api: Api, trace: seq<Event>)
    requires InitStep(available, api).1.Ok?
    ensures forall o <- InitResults(available, [InitCall(api)] + trace)[1..] :: o == Err(AlreadyInitialised)
  {
    var t := [InitCall(api)] + trace;
    assert t[1..] == trace;
    TakenStaysTaken(trace);
  }

  /** A library or `sensors_init` that cannot be loaded keeps the slot taken: the next `init` is refused
      even though no handle exists. */
  lemma LoadFailureKeepsSlot(api: Api, api': Api)
    requires !api.loadable || SYM_INIT !in api.exports
    ensures InitResults(true, [InitCall(api), InitCall(api')]) == [InitStep(true, api).1, Err(AlreadyInitialised)]
  {
    var t := [InitCall(api), InitCall(api')];
    var first := InitStep(true, api);
    assert t[1..] == [InitCall(api')] && t[1..][1..] == [];
    assert InitResults(first.0, t[1..]) == [InitStep(first.0, api').1];
    assert InitResults(true, t) == [first.1] + InitResults(first.0, t[1..]);
  }

  /** A negative `sensors_init` code is the one failure that gives the slot back. */
  lemma NativeInitFailureFreesSlot(api: Api, api': Api)
    requires api.loadable && SYM_INIT in api.exports && api.initCode < 0
    ensures InitResults(true, [InitCall(api), InitCall(api')]) == [Err(Init(Sensors(SensorsError(api.initCode)))), InitStep(true, api').1]
  {
    var t := [InitCall(api), InitCall(api')];
    var first := InitStep(true, api);
    assert t[1..] == [InitCall(api')] && t[1..][1..] == [];
    assert InitResults(first.0, t[1..]) == [InitStep(first.0, api').1];
    assert InitResults(true, t) == [first.1] + InitResults(first.0, t[1..]);
  }

  /** As written, `close` does not give the slot back: `init`, `close`, `init` refuses the second `init`
      although no handle is left. */
  lemma CloseKeepsSlotTaken(api: Api, api': Api)
    requires InitStep(true, api).1.Ok?
    ensures InitResults(true, [InitCall(api), CloseCall, InitCall(api')]) == [Ok(()), Err(AlreadyInitialised)]
  {
    var t := [InitCall(api), CloseCall, InitCall(api')];
    assert t[1..] == [CloseCall, InitCall(api')] && t[1..][1..] == [InitCall(api')] && t[1..][1..][1..] == [];
    assert InitResults(false, t[1..][1..]) == [Err(AlreadyInitialised)];
  }

  /** The singleton as the handle's documentation describes it: the flag and the number of live handles. */
  datatype Slot = Slot(available: bool, live: nat)

  /** One call, with releasing a handle (by `close` or `Drop`) giving the slot back, and an `init` that
      fails for any reason (library, symbol or native code) leaving it free. */
  function StepIntended(s: Slot, e: Event): (s': Slot)
    ensures e.InitCall? ==> (s'.available <==> s.available && InitStep(s.available, e.api).1.Err?)
    ensures e.InitCall? ==> s'.live == s.live + if InitStep(s.available, e.api).1.Ok? then 1 else 0
    ensures !e.InitCall? && s.live > 0 ==> s' == Slot(true, s.live - 1)
    ensures !e.InitCall? && s.live == 0 ==> s' == s
  {
    match e
    case InitCall(api) =>
      var step := InitStep(s.available, api);
      Slot(s.available && step.1.Err?, s.live + if step.1.Ok? then 1 else 0)
    case _ =>
      if s.live > 0 then Slot(true, s.live - 1) else s
  }

  /** A sequence of calls under the corrected release. */
  function RunIntended(s: Slot, trace: seq<Event>): Slot
    decreases |trace|
  {
    if |trace| == 0 then s else RunIntended(StepIntended(s, trace[0]), trace[1..])
  }

  /** At most one live handle, and none while the flag says the slot is available. */
  predicate SlotOk(s: Slot)
  {
    s.live <= 1 && (s.available ==> s.live == 0)
  }

  /** Each call keeps the invariant under the corrected release. */
  lemma StepIntendedKeepsSlotOk(s: Slot, e: Event)
    requires SlotOk(s)
    ensures SlotOk(StepIntended(s, e))
  {
  }

  /** Under the corrected release, no sequence of calls ever has two live handles. */
  lemma {:induction false} IntendedAtMostOneHandle(s: Slot, trace: seq<Event>)
    requires SlotOk(s)
    ensures SlotOk(RunIntended(s, trace))
    decreases |trace|
  {
    if |trace| > 0 {
      StepIntendedKeepsSlotOk(s, trace[0]);
      IntendedAtMostOneHandle(StepIntended(s, trace[0]), trace[1..]);
    }
  }

  /** Under the corrected release, `init` then `close` returns to the starting state, so the next `init`
      behaves like the first. */
  lemma IntendedCloseFreesSlot(api: Api)
    requires InitStep(true, api).1.Ok?
    ensures RunIntended(Slot(true, 0), [InitCall(api), CloseCall]) == Slot(true, 0)
  {
    var t := [InitCall(api), CloseCall];
    assert t[1..] == [CloseCall] && t[1..][1..] == [];
    var s1 := StepIntended(Slot(true, 0), InitCall(api));
    assert s1 == Slot(false, 1);
    assert RunIntended(Slot(true, 0), t) == RunIntended(s1, t[1..]);
    assert RunIntended(s1, t[1..]) == RunIntended(StepIntended(s1, CloseCall), []);
  }

  /** Under the corrected semantics, an `init` that fails for any reason leaves the slot as it was, so the
      next `init` behaves like the first. */
  lemma IntendedInitFailureFreesSlot(api: Api)
    requires InitStep(true, api).1.Err?
    ensures RunIntended(Slot(true, 0), [InitCall(api)]) == Slot(true, 0)
  {
  }
}
