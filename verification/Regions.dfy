/** Registered memory regions and the pool of them, run by one goroutine at a time. */
module Regions {
  import opened Basics
  import opened Runtime

  /** libfabric's flag words: FI_MR_LOCAL is both an access flag and a domain mode. */
  type Flags = bv64

  const FI_MR_LOCAL: Flags := 4
  const FI_MR_VIRT_ADDR: Flags := 16
  const FI_MR_PROV_KEY: Flags := 64
  const FI_MR_MMU_NOTIFY: Flags := 128
  const FI_MR_RMA_EVENT: Flags := 256
  const SUPPORTED_MODES := FI_MR_LOCAL | FI_MR_VIRT_ADDR | FI_MR_PROV_KEY | FI_MR_MMU_NOTIFY | FI_MR_RMA_EVENT

  datatype Error =
    | InvalidHandle
    | EmptyBuffer
    | CapabilityUnsupported
    | AllocFailed
    | Provider(code: int)
    | InsufficientAccess
    | PoolClosed
    | BadSize
    | NilRequest
    | ContextReleased
    | TooLong

  // ---------------------------------------------------------------- access flags

  /** The access a region is registered with: local by default, and always local where the domain requires it. */
  function EffectiveAccess(requested: Flags, mode: Flags): Flags {
    var access := if requested == 0 then FI_MR_LOCAL else requested;
    if mode & FI_MR_LOCAL != 0 then access | FI_MR_LOCAL else access
  }

  predicate HasAccess(access: Flags, flag: Flags) {
    access & flag == flag
  }

  /**
   Registration drops no requested access and adds none but local, which it grants exactly if it is asked for, by
   request, default or domain.
   */
  lemma LocalAccessGranted(requested: Flags, mode: Flags)
    ensures HasAccess(EffectiveAccess(requested, mode), requested)
    ensures EffectiveAccess(requested, mode) & !FI_MR_LOCAL == requested & !FI_MR_LOCAL
    ensures HasAccess(EffectiveAccess(requested, mode), FI_MR_LOCAL)
            <==> requested == 0 || requested & FI_MR_LOCAL != 0 || mode & FI_MR_LOCAL != 0
  {
  }

  // ---------------------------------------------------------------- regions

  /** The values of a region's fields. */
  datatype RegionFields = RegionFields(open: bool, buffer: Addr, length: nat, access: Flags, ownsBuf: bool)

  class MemoryRegion {
    var open: bool            // the provider handle is not nil
    var buffer: Addr
    var length: nat
    var access: Flags
    var ownsBuf: bool

    constructor (buffer: Addr, length: nat, access: Flags, ownsBuf: bool)
      ensures open && this.buffer == buffer && this.length == length && this.access == access && this.ownsBuf == ownsBuf
    {
      this.open, this.buffer, this.length, this.access, this.ownsBuf := true, buffer, length, access, ownsBuf;
    }

    ghost function Fields(): RegionFields
      reads this
    {
      RegionFields(open, buffer, length, access, ownsBuf)
    }

    /** An open region stands for a live block; one that owns its buffer was given the block for it. */
    ghost predicate Valid(g: Process)
      reads this, g`live
    {
      ValidIn(g.live)
    }

    ghost predicate ValidIn(live: map<Addr, Block>)
      reads this
    {
      && (open ==> buffer != NIL && buffer in live && live[buffer].owner == Mapped && |live[buffer].bytes| == length)
      && (!open ==> buffer == NIL && length == 0 && access == 0 && !ownsBuf)
    }

    /**
     Close: a failed handle close, which is the provider's answer `status`, changes nothing; otherwise the buffer is
     freed if the region owns it.
     */
    method Close(g: Process, status: int) returns (err: Option<Error>)
      requires Valid(g)
      modifies this, g`live
      ensures err == if old(open) && status != 0 then Some(Provider(status)) else None
      ensures err.Some? ==> old(open) && unchanged(this) && unchanged(g)
      ensures err == None ==> !open && Valid(g)
      ensures err == None ==> g.live == if old(ownsBuf) then old(g.live) - {old(buffer)} else old(g.live)
    {
      if open {
        if status != 0 {
          return Some(Provider(status));
        }
      }
      if buffer != NIL && ownsBuf {
        g.FreeBytes(buffer);
      }
      open, buffer, length, access, ownsBuf := false, NIL, 0, 0, false;
      return None;
    }
  }

  /** ensureRegionAccess: no region is no obstacle. */
  function EnsureRegionAccess(r: MemoryRegion?, required: Flags): Option<Error>
    reads r
  {
    if r == null then None
    else if !r.open || r.buffer == NIL then Some(InvalidHandle)
    else if required != 0 && !HasAccess(r.access, required) then Some(InsufficientAccess)
    else None
  }

  /**
   A region registered with access `requested`, by copy or by pointer, passes the check of the posting functions while
   it is open, exactly if it is local.
   */
  lemma RegisteredRegionPasses(r: MemoryRegion, requested: Flags, mode: Flags)
    requires r.open && r.buffer != NIL && r.access == EffectiveAccess(requested, mode)
    ensures EnsureRegionAccess(r, FI_MR_LOCAL) == None
            <==> requested == 0 || requested & FI_MR_LOCAL != 0 || mode & FI_MR_LOCAL != 0
  {
    LocalAccessGranted(requested, mode);
  }

  class Domain {
    var open: bool
    const mrMode: Flags

    constructor (mode: Flags)
      ensures open && mrMode == mode
    {
      open, mrMode := true, mode;
    }

    /**
     The check of the posting functions passes the region exactly if local access was asked for, or the domain wants it.
     */
    ghost predicate PassesAsRegistered(r: MemoryRegion, requested: Flags)
      reads r
    {
      EnsureRegionAccess(r, FI_MR_LOCAL) == None
      <==> requested == 0 || requested & FI_MR_LOCAL != 0 || mrMode & FI_MR_LOCAL != 0
    }

    /** The domain can register memory at all. */
    predicate Able()
      reads this
    {
      open && mrMode & !(FI_MR_LOCAL | FI_MR_VIRT_ADDR | FI_MR_PROV_KEY | FI_MR_MMU_NOTIFY | FI_MR_RMA_EVENT) == 0
    }

    /**
     RegisterMemoryWithOptions: a copy of `buf` in C memory, registered.  It fails, and leaves the C heap as it was,
     exactly for a closed domain, an empty buffer, an unsupported mode, malloc's refusal or the provider's.
     */
    method RegisterMemory(g: Process, buf: seq<Byte>, requested: Flags, at: Addr, status: int)
        returns (r: MemoryRegion?, err: Option<Error>)
      requires g.Valid()
      modifies g`live
      ensures g.Valid() && (r == null <==> err.Some?)
      ensures r != null <==> Able() && buf != [] && Grants(old(g.live).Keys, at) && status == 0
      ensures err == Some(InvalidHandle) <==> !open
      ensures err == Some(EmptyBuffer) <==> open && buf == []
      ensures err == Some(CapabilityUnsupported) <==> open && buf != [] && !Able()
      ensures err == Some(AllocFailed) <==> Able() && buf != [] && !Grants(old(g.live).Keys, at)
      ensures err == Some(Provider(status)) <==> Able() && buf != [] && Grants(old(g.live).Keys, at) && status != 0
      ensures r == null ==> g.live == old(g.live)
      ensures r != null ==> fresh(r) && r.Valid(g) && r.open && r.ownsBuf && r.length == |buf|
                            && r.access == EffectiveAccess(requested, mrMode)
                            && PassesAsRegistered(r, requested)
                            && r.buffer == at && g.live == old(g.live)[at := Block(Mapped, buf)]
    {
      if !open {
        return null, Some(InvalidHandle);
      }
      if |buf| == 0 {
        return null, Some(EmptyBuffer);
      }
      if mrMode & !SUPPORTED_MODES != 0 {
        return null, Some(CapabilityUnsupported);
      }
      ghost var w := g.Abs();
      var cbuf := g.Malloc(|buf|, Mapped, at);
      if cbuf == NIL {
        return null, Some(AllocFailed);
      }
      g.live := g.live[cbuf := Block(Mapped, buf)];
      if status != 0 {
        g.FreeBytes(cbuf);
        assert g.live == w.live && g.Abs() == w;
        return null, Some(Provider(status));
      }
      assert g.Abs() == w.(live := w.live[cbuf := Block(Mapped, buf)]);
      MapKeepsOk(w, cbuf, buf);
      r := new MemoryRegion(cbuf, |buf|, EffectiveAccess(requested, mrMode), true);
      RegisteredRegionPasses(r, requested, mrMode);
      return r, None;
    }

    /** RegisterMemoryPointer: no copy, and the caller keeps the memory. */
    method RegisterMemoryPointer(g: Process, ptr: Addr, length: nat, requested: Flags, status: int)
        returns (r: MemoryRegion?, err: Option<Error>)
      ensures r == null <==> err.Some?
      ensures r != null <==> Able() && ptr != NIL && length > 0 && status == 0
      ensures err == Some(InvalidHandle) <==> !open
      ensures err == Some(EmptyBuffer) <==> open && (ptr == NIL || length == 0)
      ensures err == Some(CapabilityUnsupported) <==> open && ptr != NIL && length > 0 && !Able()
      ensures err == Some(Provider(status)) <==> Able() && ptr != NIL && length > 0 && status != 0
      ensures r != null ==> fresh(r) && r.open && r.buffer == ptr && r.length == length && !r.ownsBuf
                            && r.access == EffectiveAccess(requested, mrMode)
                            && PassesAsRegistered(r, requested)
    {
      if !open {
        return null, Some(InvalidHandle);
      }
      if ptr == NIL || length == 0 {
        return null, Some(EmptyBuffer);
      }
      if mrMode & !SUPPORTED_MODES != 0 {
        return null, Some(CapabilityUnsupported);
      }
      if status != 0 {
        return null, Some(Provider(status));
      }
      r := new MemoryRegion(ptr, length, EffectiveAccess(requested, mrMode), false);
      RegisteredRegionPasses(r, requested, mrMode);
      return r, None;
    }
  }

  lemma MapKeepsOk(w: World, a: Addr, bytes: seq<Byte>)
    requires Ok(w) && a != NIL && a !in w.live
    ensures Ok(w.(live := w.live[a := Block(Mapped, bytes)]))
  {
    var t := w.(live := w.live[a := Block(Mapped, bytes)]);
    forall b | b in t.live ensures BlockOk(t, b) { if b != a { assert BlockOk(w, b); } }
    forall p | p in t.ctxs ensures CtxOk(t, p) { assert CtxOk(w, p); }
  }

  lemma UnmapKeepsOk(w: World, a: Addr)
    requires Ok(w) && a in w.live && w.live[a].owner == Mapped
    ensures Ok(w.(live := w.live - {a}))
  {
    var t := w.(live := w.live - {a});
    forall b | b in t.live ensures BlockOk(t, b) { assert BlockOk(w, b); }
    forall p | p in t.ctxs ensures CtxOk(t, p) { assert CtxOk(w, p); }
  }
}
