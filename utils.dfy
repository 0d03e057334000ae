/** Pointer and ownership helpers (src/utils.rs), with `invert_res_opt` and `try_cstr`, which the crate
    imports from the same module. */
module Utils {
  import opened Prelude

  /** A raw pointer `*const T`: null, or an address together with the data stored there. */
  datatype Ptr<T> = Null | At(addr: nat, pointee: T)

  /** A safe reference `&'a T`: an address and the data it refers to. */
  datatype Ref<T> = Ref(addr: nat, target: T)

  /** `r as *const T` */
  function AsPtr<T>(r: Ref<T>): Ptr<T>
  {
    At(r.addr, r.target)
  }

  /** The address a pointer holds, as a sequence with zero (null) or one element. */
  function AddrOf<T>(p: Ptr<T>): seq<nat>
  {
    if p.At? then [p.addr] else []
  }

  /** `ptr_to_ref`: null first, then alignment, then a reference to the same address. */
  function PtrToRef<T>(p: Ptr<T>, align: nat): (r: Result<Option<Ref<T>>, ()>)
    requires align > 0
    ensures r == Ok(None) <==> p.Null?
    ensures r.Err? <==> p.At? && p.addr % align != 0
    ensures r.Ok? && r.value.Some? ==> AsPtr(r.value.value) == p
  {
    if p.Null? then Ok(None)
    else if p.addr % align != 0 then Err(())
    else Ok(Some(Ref(p.addr, p.pointee)))
  }

  /** A reference turned into a pointer converts back to the same reference. */
  lemma PtrToRefAsPtr<T>(r: Ref<T>, align: nat)
    requires align > 0 && r.addr % align == 0
    ensures PtrToRef(AsPtr(r), align) == Ok(Some(r))
  {
  }

  /** A pointer to a C string: when it is not null, the bytes from its address on contain a NUL. */
  type CStrPtr = p: Ptr<seq<Byte>> | p.At? ==> 0 in p.pointee witness Null

  /** `CStr::from_ptr(..).to_bytes()`: the bytes before the first NUL. */
  function CStrFrom(mem: seq<Byte>): (s: seq<Byte>)
    requires 0 in mem
    ensures 0 !in s
    ensures |s| < |mem| && mem[..|s|] == s && mem[|s|] == 0
  {
    if mem[0] == 0 then [] else [mem[0]] + CStrFrom(mem[1..])
  }

  /** Writing a NUL-free string and a terminator, then reading it back, gives the string. */
  lemma {:induction false} CStrFromRoundTrip(s: seq<Byte>, rest: seq<Byte>)
    requires 0 !in s
    ensures CStrFrom(s + [0] + rest) == s
  {
    if s != [] {
      assert (s + [0] + rest)[1..] == s[1..] + [0] + rest;
      CStrFromRoundTrip(s[1..], rest);
    }
  }

  /** `try_cstr`: null becomes `None`, anything else the C string it points to. */
  function TryCStr(p: CStrPtr): (r: Option<seq<Byte>>)
    ensures r.None? <==> p.Null?
    ensures r.Some? ==> 0 !in r.value && r.value + [0] <= p.pointee
  {
    if p.Null? then None else Some(CStrFrom(p.pointee))
  }

  /** `invert_res_opt`: `Option<Result<T>>` becomes `Result<Option<T>>`. */
  function InvertResOpt<T, E>(x: Option<Result<T, E>>): (r: Result<Option<T>, E>)
    ensures r.Err? <==> x.Some? && x.value.Err?
    ensures r == Ok(None) <==> x.None?
  {
    match x
    case None => Ok(None)
    case Some(Ok(v)) => Ok(Some(v))
    case Some(Err(e)) => Err(e)
  }

  /** `Result::transpose`, the inverse of `invert_res_opt`. */
  function Transpose<T, E>(r: Result<Option<T>, E>): Option<Result<T, E>>
  {
    match r
    case Ok(None) => None
    case Ok(Some(v)) => Some(Ok(v))
    case Err(e) => Some(Err(e))
  }

  /** `invert_res_opt` is a bijection: nothing is lost in either direction. */
  lemma InvertResOptBijective<T, E>(x: Option<Result<T, E>>, r: Result<Option<T>, E>)
    ensures Transpose(InvertResOpt(x)) == x
    ensures InvertResOpt(Transpose(r)) == r
  {
  }

  /** The C allocator that libsensors' label buffers come from and must be returned to. */
  class Allocator {
    /** Addresses handed out, in order. */
    var allocations: seq<nat>
    /** Addresses passed to `free`, in order. */
    var freed: seq<nat>

    constructor ()
      ensures allocations == [] && freed == []
    {
      allocations, freed := [], [];
    }

    /** Record an allocation made by the native side. */
    method Allocate(addr: nat)
      modifies this
      ensures allocations == old(allocations) + [addr] && freed == old(freed)
    {
      allocations := allocations + [addr];
    }

    /** `free` */
    method Free(addr: nat)
      modifies this
      ensures freed == old(freed) + [addr] && allocations == old(allocations)
    {
      freed := freed + [addr];
    }
  }

  /** `GLibCBox`: owns a pointer that must be handed to `free` when the box goes out of scope. */
  class GLibCBox<T> {
    const ptr: Ptr<T>
    const free: Allocator
    /** The box has gone out of scope (Rust runs `drop` once, by ownership). */
    ghost var dropped: bool
    /** How many times this box has called `free`. */
    ghost var frees: nat

    ghost predicate Valid()
      reads this
    {
      frees == if dropped && ptr.At? then 1 else 0
    }

    /** `from_raw` */
    constructor FromRaw(ptr: Ptr<T>, free: Allocator)
      ensures this.ptr == ptr && this.free == free && Deref() == ptr
      ensures Valid() && !dropped && frees == 0
    {
      this.ptr := ptr;
      this.free := free;
      dropped := false;
      frees := 0;
    }

    /** `Deref`: the stored pointer. */
    function Deref(): Ptr<T>
    {
      ptr
    }

    /** `Drop`: frees a non-null pointer exactly once and leaves a null one alone. */
    method Drop()
      requires Valid() && !dropped
      modifies this, free
      ensures Valid() && dropped
      ensures frees == if ptr.At? then 1 else 0
      ensures free.freed == old(free.freed) + AddrOf(ptr)
      ensures free.allocations == old(free.allocations)
    {
      if ptr.At? {
        free.Free(ptr.addr);
        frees := frees + 1;
      }
      dropped := true;
    }
  }
}
