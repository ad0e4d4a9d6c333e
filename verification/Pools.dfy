/** MRPool, run by one goroutine at a time; the interleavings are in PoolProtocol. */
module Pools {
  import opened Basics
  import opened Runtime
  import opened Regions

  class MRPool {
    const domain: Domain
    const size: nat
    const access: Flags
    const capacity: nat
    var chan: seq<MemoryRegion>
    var closed: bool

    constructor (domain: Domain, size: nat, access: Flags, capacity: nat)
      ensures this.domain == domain && this.size == size && this.access == access && this.capacity == capacity
      ensures chan == [] && !closed
    {
      this.domain, this.size, this.access, this.capacity, chan, closed := domain, size, access, capacity, [], false;
    }

    /**
     A region that the pool may hold or hand out: open, of the pool's size, on its own buffer, with the pool's access.
     */
    ghost predicate Poolable(g: Process, r: MemoryRegion)
      reads r, g`live
    {
      r.Valid(g) && r.open && r.ownsBuf && r.length == size && r.access == EffectiveAccess(access, domain.mrMode)
    }

    ghost function Held(): set<object>
      reads this
    {
      set r | r in chan
    }

    ghost predicate Valid(g: Process)
      reads this, chan, g`live
    {
      && |chan| <= capacity && size > 0
      && (forall i :: 0 <= i < |chan| ==> Poolable(g, chan[i]))
      && (forall i, j :: 0 <= i < j < |chan| ==> chan[i] != chan[j] && chan[i].buffer != chan[j].buffer)
    }

    /** `r` is not in the pool, and its buffer is no pooled region's. */
    ghost predicate Apart(r: MemoryRegion)
      reads this, chan, r
    {
      r !in chan && forall i :: 0 <= i < |chan| ==> chan[i].buffer != r.buffer
    }

    /**
     Acquire: the longest-pooled region, or a new one of zero bytes if the pool is empty.  Either way it is
     open, of the pool's size, of the pool's access, and the pool has nothing to do with it any more.  It fails exactly
     if the pool is closed, or if it is empty and the registration fails, with the answers `at` of malloc and `status`
     of the provider.
     */
    method Acquire(g: Process, at: Addr, status: int) returns (r: MemoryRegion?, err: Option<Error>)
      requires g.Valid() && Valid(g)
      modifies this`chan, g`live
      ensures g.Valid() && Valid(g) && (r == null <==> err.Some?)
      ensures r == null ==> chan == old(chan) && g.live == old(g.live)
      ensures err == Some(PoolClosed) <==> closed
      ensures !closed && old(chan) != [] ==> r == old(chan[0]) && chan == old(chan[1..]) && g.live == old(g.live)
      ensures !closed && old(chan) == [] ==>
                && (r != null <==> domain.Able() && Grants(old(g.live).Keys, at) && status == 0)
                && (err == Some(InvalidHandle) <==> !domain.open)
                && (err == Some(CapabilityUnsupported) <==> domain.open && !domain.Able())
                && (err == Some(AllocFailed) <==> domain.Able() && !Grants(old(g.live).Keys, at))
                && (err == Some(Provider(status)) <==> domain.Able() && Grants(old(g.live).Keys, at) && status != 0)
      ensures r != null ==> Poolable(g, r) && Apart(r)
      ensures r != null && old(chan) == [] ==>
                && fresh(r) && chan == [] && r.buffer == at
                && g.live == old(g.live)[at := Block(Mapped, seq(size, _ => 0))]
    {
      if closed {
        return null, Some(PoolClosed);
      }
      if |chan| > 0 {
        r := chan[0];
        chan := chan[1..];
        return r, None;
      }
      r, err := domain.RegisterMemory(g, seq(size, _ => 0), access, at, status);
    }

    /** Closing a region frees its buffer if it owns it, or leaves it as it was exactly if the provider refuses. */
    static method CloseRegion(g: Process, r: MemoryRegion, status: int)
      requires g.Valid() && r.Valid(g)
      modifies r, g`live
      ensures g.Valid()
      ensures old(r.open) && status != 0 ==> unchanged(r) && g.live == old(g.live)
      ensures !old(r.open) || status == 0 ==>
                !r.open && g.live == if old(r.ownsBuf) then old(g.live) - {old(r.buffer)} else old(g.live)
    {
      ghost var w := g.Abs();
      var err := r.Close(g, status);
      assert g.Abs() == w.(live := g.live);
      if err == None && old(r.ownsBuf) { UnmapKeepsOk(w, old(r.buffer)); }
    }

    /**
     Release: back into the pool if it is open, has room, and the size matches; otherwise the region is closed.
     The pool stays in order if the region is one of its own that it does not hold.
     */
    method Release(g: Process, r: MemoryRegion, status: int)
      requires g.Valid() && Valid(g) && r.Valid(g)
      modifies this`chan, r, g`live
      ensures g.Valid()
      ensures old(Apart(r)) && (old(r.length) == size ==> old(Poolable(g, r))) ==> Valid(g)
      ensures !closed && old(r.length) == size && old(|chan|) < capacity ==>
                chan == old(chan) + [r] && g.live == old(g.live) && unchanged(r)
      ensures closed || old(r.length) != size || old(|chan|) >= capacity ==>
                && chan == old(chan)
                && if old(r.open) && status != 0 then unchanged(r) && g.live == old(g.live)
                   else !r.open && g.live == if old(r.ownsBuf) then old(g.live) - {old(r.buffer)} else old(g.live)
    {
      if !closed && r.length == size && |chan| < capacity {
        chan := chan + [r];
        return;
      }
      CloseRegion(g, r, status);
    }

    /** One turn of the drain loop. */
    method CloseFirst(g: Process, refused: set<MemoryRegion>)
      requires g.Valid() && Valid(g) && chan != []
      modifies this`chan, chan[0], g`live
      ensures g.Valid() && Valid(g) && chan == old(chan[1..])
      ensures var r := old(chan[0]);
              if r in refused then unchanged(r) && g.live == old(g.live)
              else !r.open && g.live == old(g.live) - {old(r.buffer)}
    {
      var r := chan[0];
      chan := chan[1..];
      CloseRegion(g, r, if r in refused then 1 else 0);
    }

    /**
     Close: the first call drains the pool.  It ends with an empty pool; exactly the pooled regions whose handle the
     provider does not refuse to close are closed, their buffers freed, and nothing else happened to the C heap.
     */
    method Close(g: Process, refused: set<MemoryRegion>)
      requires g.Valid() && Valid(g)
      modifies this, chan, g`live
      ensures g.Valid() && Valid(g) && closed
      ensures old(closed) ==> chan == old(chan) && g.live == old(g.live)
      ensures !old(closed) ==>
                chan == [] && Drained(g, old(g.live), old(chan), old(FieldsOf(chan)), |old(chan)|, refused)
    {
      if closed {
        return;
      }
      closed := true;
      ghost var all, was, live := chan, FieldsOf(chan), g.live;
      ghost var n := 0;
      while |chan| > 0
        invariant g.Valid() && Valid(g) && closed
        invariant n <= |all| && chan == all[n..]
        invariant Drained(g, live, all, was, n, refused)
        decreases |chan|
      {
        DrainOne(g, live, all, was, n, refused);
        n := n + 1;
      }
    }

    method DrainOne(g: Process, ghost live: map<Addr, Block>, ghost all: seq<MemoryRegion>,
                    ghost was: seq<RegionFields>, ghost n: nat, refused: set<MemoryRegion>)
      requires g.Valid() && Valid(g) && n < |all| == |was| && chan == all[n..]
      requires Drained(g, live, all, was, n, refused)
      requires forall i, j :: 0 <= i < j < |all| ==> all[i] != all[j]
      modifies this`chan, chan[0], g`live
      ensures g.Valid() && Valid(g) && chan == all[n + 1..]
      ensures Drained(g, live, all, was, n + 1, refused)
    {
      assert chan[0] == all[n] && all[n].Fields() == was[n];
      CloseFirst(g, refused);
      assert all[..n + 1][..n] == all[..n] && was[..n + 1][..n] == was[..n];
      FreedSnoc(all[..n + 1], was[..n + 1], refused);
    }
  }

  /** The first `n` regions are closed or refused, the others as they were, and the C heap accordingly. */
  ghost predicate Drained(g: Process, live: map<Addr, Block>, all: seq<MemoryRegion>, was: seq<RegionFields>, n: nat,
                          refused: set<MemoryRegion>)
    requires n <= |all| == |was|
    reads g`live, all
  {
    && g.live == live - Freed(all[..n], was[..n], refused)
    && (forall i :: 0 <= i < |all| ==> (i < n && all[i] !in refused) || all[i].Fields() == was[i])
    && (forall i :: 0 <= i < n && all[i] !in refused ==> !all[i].open)
  }

  ghost function FieldsOf(rs: seq<MemoryRegion>): (r: seq<RegionFields>)
    reads rs
    ensures |r| == |rs| && forall i :: 0 <= i < |rs| ==> r[i] == rs[i].Fields()
  {
    seq(|rs|, i requires 0 <= i < |rs| reads rs => rs[i].Fields())
  }

  /** The buffers of the regions whose close the provider does not refuse. */
  ghost function Freed(rs: seq<MemoryRegion>, was: seq<RegionFields>, refused: set<MemoryRegion>): set<Addr>
    requires |rs| == |was|
  {
    set i | 0 <= i < |rs| && rs[i] !in refused :: was[i].buffer
  }

  lemma FreedSnoc(rs: seq<MemoryRegion>, was: seq<RegionFields>, refused: set<MemoryRegion>)
    requires |rs| == |was| > 0
    ensures var n := |rs| - 1;
            Freed(rs, was, refused)
            == Freed(rs[..n], was[..n], refused) + (if rs[n] in refused then {} else {was[n].buffer})
  {
  }

  /** NewMRPool: a negative capacity counts as none. */
  method NewMRPool(domain: Domain, size: int, access: Flags, capacity: int) returns (p: MRPool?, err: Option<Error>)
    ensures p == null <==> err.Some?
    ensures !domain.open ==> err == Some(InvalidHandle)
    ensures domain.open && size <= 0 ==> err == Some(BadSize)
    ensures domain.open && size > 0 ==>
              p != null && fresh(p) && p.domain == domain && p.size == size && p.access == access
              && p.capacity == (if capacity < 0 then 0 else capacity) && p.chan == [] && !p.closed
  {
    if !domain.open {
      return null, Some(InvalidHandle);
    }
    if size <= 0 {
      return null, Some(BadSize);
    }
    p := new MRPool(domain, size, access, if capacity < 0 then 0 else capacity);
    return p, None;
  }

  /**
   On a domain that requires local registration every region of a pool passes the posting check, whatever access the
   pool asks for.
   */
  lemma PooledRegionPasses(g: Process, p: MRPool, r: MemoryRegion)
    requires p.Poolable(g, r) && p.domain.mrMode & FI_MR_LOCAL != 0
    ensures EnsureRegionAccess(r, FI_MR_LOCAL) == None
  {
    RegisteredRegionPasses(r, p.access, p.domain.mrMode);
  }
}
