/**
 The memory-region pool as a protocol: any number of callers acquiring, writing and
 releasing regions, and `Close` draining the channel at the same time.

 One label is one atomic step of fi/memory_pool.go: a load of `closed`, the swap of
 `closed`, one channel operation of a `select`, or the provider call that registers or
 closes a region.  Acquire and Release both check `closed` first and act later.
 */
module PoolProtocol {
  import opened Basics

  type RegionId = nat
  type Caller = nat

  /** A registered region; `len` drops to 0 when it is closed. */
  datatype Region = Region(bytes: seq<Byte>, open: bool)

  /** Where a caller is in its use of one region. */
  datatype Point =
    | Admitted                 // in Acquire, past the `closed` check
    | Provisioning             // in Acquire, found the channel empty
    | Using(r: RegionId)       // owns the region
    | Pushing(r: RegionId)     // in Release, past the `closed` and size checks
    | Closing(r: RegionId)     // in Release, about to close the region

  datatype Drain =
    | Off                      // `Close` not called
    | Taking                   // the closer is at its select
    | Holding(r: RegionId)     // the closer has taken a region from the channel
    | Over                     // `Close` has returned

  datatype State = State(
    capacity: nat,
    size: nat,
    closed: bool,
    chan: seq<RegionId>,
    regions: map<RegionId, Region>,
    callers: map<Caller, Point>,
    drain: Drain,
    spanning: set<RegionId>)   // history: regions whose Release was past its checks when `closed` was swapped

  datatype Label =
    | Admit(a: Caller)
    | Take(a: Caller)
    | Miss(a: Caller)
    | Provision(a: Caller, r: RegionId)
    | ProvisionFails(a: Caller)
    | Register(a: Caller, r: RegionId, n: nat)
    | Write(a: Caller, data: seq<Byte>)
    | Release(a: Caller)
    | CloseOwn(a: Caller)
    | Push(a: Caller)
    | CloseRegion(a: Caller, ok: bool)
    | ClosePool
    | DrainTake
    | DrainClose(ok: bool)
    | DrainEnd

  function Init(capacity: nat, size: nat): State {
    State(capacity, size, false, [], map[], map[], Off, {})
  }

  /** The region in a caller's hands. */
  function Hand(p: Point): Option<RegionId> {
    if p.Admitted? || p.Provisioning? then None else Some(p.r)
  }

  predicate Has(s: State, a: Caller, r: RegionId) {
    a in s.callers && Hand(s.callers[a]) == Some(r)
  }

  predicate Enabled(s: State, l: Label) {
    match l
    case Admit(a) => a !in s.callers && !s.closed
    case Take(a) => a in s.callers && s.callers[a] == Admitted && s.chan != []
    case Miss(a) => a in s.callers && s.callers[a] == Admitted && s.chan == []
    case Provision(a, r) => a in s.callers && s.callers[a] == Provisioning && r !in s.regions
    case ProvisionFails(a) => a in s.callers && s.callers[a] == Provisioning
    case Register(a, r, n) => a !in s.callers && r !in s.regions
    case Write(a, data) =>
      a in s.callers && s.callers[a].Using? && s.callers[a].r in s.regions
      && |data| <= |s.regions[s.callers[a].r].bytes|
    case Release(a) => a in s.callers && s.callers[a].Using? && s.callers[a].r in s.regions
    case CloseOwn(a) => a in s.callers && s.callers[a].Using?
    case Push(a) => a in s.callers && s.callers[a].Pushing?
    case CloseRegion(a, _) => a in s.callers && s.callers[a].Closing? && s.callers[a].r in s.regions
    case ClosePool => !s.closed
    case DrainTake => s.drain == Taking && s.chan != []
    case DrainClose(_) => s.drain.Holding? && s.drain.r in s.regions
    case DrainEnd => s.drain == Taking && s.chan == []
  }

  function Move(s: State, a: Caller, p: Point): State {
    s.(callers := s.callers[a := p])
  }

  function Leave(s: State, a: Caller): State {
    s.(callers := s.callers - {a})
  }

  function Zeros(n: nat): seq<Byte> {
    seq(n, _ => 0)
  }

  /** Registration: a new region of `n` zero bytes in the caller's hands. */
  function Give(s: State, a: Caller, r: RegionId, n: nat): State {
    Move(s, a, Using(r)).(regions := s.regions[r := Region(Zeros(n), true)])
  }

  /** MemoryRegion.Close: a failed handle close leaves the region as it is. */
  function Shut(s: State, r: RegionId, ok: bool): State {
    if ok then s.(regions := s.regions[r := Region([], false)]) else s
  }

  function DoWrite(s: State, a: Caller, data: seq<Byte>): State
    requires Enabled(s, Write(a, data))
  {
    var r := s.callers[a].r;
    s.(regions := s.regions[r := s.regions[r].(bytes := Overlay(s.regions[r].bytes, data))])
  }

  function DoRelease(s: State, a: Caller): State
    requires Enabled(s, Release(a))
  {
    var r := s.callers[a].r;
    if s.closed || |s.regions[r].bytes| != s.size then Move(s, a, Closing(r)) else Move(s, a, Pushing(r))
  }

  /** The non-blocking send of Release: a full channel sends the region to be closed. */
  function DoPush(s: State, a: Caller): State
    requires Enabled(s, Push(a))
  {
    var r := s.callers[a].r;
    if |s.chan| < s.capacity then Leave(s, a).(chan := s.chan + [r]) else Move(s, a, Closing(r))
  }

  ghost function BeingPushed(s: State): set<RegionId> {
    set a | a in s.callers && s.callers[a].Pushing? :: s.callers[a].r
  }

  ghost function Step(s: State, l: Label): State
    requires Enabled(s, l)
  {
    match l
    case Admit(a) => Move(s, a, Admitted)
    case Take(a) => Move(s, a, Using(s.chan[0])).(chan := s.chan[1..])
    case Miss(a) => Move(s, a, Provisioning)
    case Provision(a, r) => Give(s, a, r, s.size)
    case ProvisionFails(a) => Leave(s, a)
    case Register(a, r, n) => Give(s, a, r, n)
    case Write(a, data) => DoWrite(s, a, data)
    case Release(a) => DoRelease(s, a)
    case CloseOwn(a) => Move(s, a, Closing(s.callers[a].r))
    case Push(a) => DoPush(s, a)
    case CloseRegion(a, ok) => Shut(Leave(s, a), s.callers[a].r, ok)
    case ClosePool => s.(closed := true, drain := Taking, spanning := BeingPushed(s))
    case DrainTake => s.(drain := Holding(s.chan[0]), chan := s.chan[1..])
    case DrainClose(ok) => Shut(s, s.drain.r, ok).(drain := Taking)
    case DrainEnd => s.(drain := Over)
  }

  // ---------------------------------------------------------------- invariant

  /** A pooled region is open, of the configured size, in the channel once, and in nobody's hands. */
  ghost predicate PooledOk(s: State, i: int)
    requires 0 <= i < |s.chan|
  {
    var r := s.chan[i];
    && r in s.regions && s.regions[r].open && |s.regions[r].bytes| == s.size
    && (forall j :: 0 <= j < |s.chan| && j != i ==> s.chan[j] != r)
    && s.drain != Holding(r)
    && (s.drain == Over ==> r in s.spanning)
  }

  /** A region in a caller's hands is open, in nobody else's hands and not in the channel. */
  ghost predicate HandOk(s: State, a: Caller)
    requires a in s.callers
  {
    var p := s.callers[a];
    Hand(p) == None ||
    (&& p.r in s.regions && s.regions[p.r].open
     && p.r !in s.chan
     && (forall b :: b in s.callers && b != a ==> Hand(s.callers[b]) != Some(p.r))
     && s.drain != Holding(p.r)
     && (p.Pushing? ==> |s.regions[p.r].bytes| == s.size)
     && (p.Pushing? && s.closed ==> p.r in s.spanning))
  }

  ghost predicate DrainOk(s: State) {
    && (s.drain == Off <==> !s.closed)
    && (s.drain.Holding? ==> s.drain.r in s.regions && s.regions[s.drain.r].open)
  }

  ghost predicate Inv(s: State) {
    && |s.chan| <= s.capacity
    && (forall i {:trigger PooledOk(s, i)} :: 0 <= i < |s.chan| ==> PooledOk(s, i))
    && (forall a {:trigger HandOk(s, a)} :: a in s.callers ==> HandOk(s, a))
    && DrainOk(s)
  }

  /** The channel holds only open regions of the configured size, never the one the closer has in hand. */
  lemma PooledRegions(s: State)
    requires Inv(s)
    ensures forall r | r in s.chan ::
              r in s.regions && s.regions[r].open && |s.regions[r].bytes| == s.size && s.drain != Holding(r)
  {
    forall r | r in s.chan
      ensures r in s.regions && s.regions[r].open && |s.regions[r].bytes| == s.size && s.drain != Holding(r)
    {
      var i :| 0 <= i < |s.chan| && s.chan[i] == r;
      assert PooledOk(s, i);
    }
  }

  /** A step that leaves channel, regions and drain alone, and moves one caller without a new region. */
  lemma MoveKeepsInv(s: State, a: Caller, p: Point)
    requires Inv(s)
    requires Hand(p) == None || Has(s, a, p.r)
    requires p.Pushing? ==> !s.closed && p.r in s.regions && |s.regions[p.r].bytes| == s.size
    ensures Inv(Move(s, a, p))
  {
    var t := Move(s, a, p);
    if a in s.callers { assert HandOk(s, a); }
    forall i | 0 <= i < |t.chan| ensures PooledOk(t, i) { assert PooledOk(s, i); }
    forall b | b in t.callers ensures HandOk(t, b) { if b in s.callers { assert HandOk(s, b); } }
  }

  lemma LeaveKeepsInv(s: State, a: Caller)
    requires Inv(s)
    ensures Inv(Leave(s, a))
  {
    var t := Leave(s, a);
    forall i | 0 <= i < |t.chan| ensures PooledOk(t, i) { assert PooledOk(s, i); }
    forall b | b in t.callers ensures HandOk(t, b) { assert HandOk(s, b); }
  }

  lemma TakeKeepsInv(s: State, a: Caller)
    requires Inv(s) && Enabled(s, Take(a))
    ensures Inv(Step(s, Take(a)))
  {
    var t := Step(s, Take(a));
    assert PooledOk(s, 0);
    assert s.chan[0] in s.chan && s.chan[0] !in t.chan && forall x :: x in t.chan ==> x in s.chan;
    forall c | c in s.callers ensures Hand(s.callers[c]) != Some(s.chan[0]) { assert HandOk(s, c); }
    forall i | 0 <= i < |t.chan| ensures PooledOk(t, i) { assert PooledOk(s, i + 1); }
    forall b | b in t.callers ensures HandOk(t, b) { assert HandOk(s, b); }
  }

  lemma GiveKeepsInv(s: State, a: Caller, r: RegionId, n: nat)
    requires Inv(s) && r !in s.regions
    requires a in s.callers ==> Hand(s.callers[a]) == None
    ensures Inv(Give(s, a, r, n))
  {
    var t := Give(s, a, r, n);
    PooledRegions(s);
    forall c | c in s.callers ensures Hand(s.callers[c]) != Some(r) { assert HandOk(s, c); }
    forall i | 0 <= i < |t.chan| ensures PooledOk(t, i) { assert PooledOk(s, i); }
    forall b | b in t.callers ensures HandOk(t, b) { if b in s.callers { assert HandOk(s, b); } }
  }

  lemma WriteKeepsInv(s: State, a: Caller, data: seq<Byte>)
    requires Inv(s) && Enabled(s, Write(a, data))
    ensures Inv(DoWrite(s, a, data))
  {
    var t := DoWrite(s, a, data);
    assert HandOk(s, a);
    forall i | 0 <= i < |t.chan| ensures PooledOk(t, i) { assert PooledOk(s, i); }
    forall b | b in t.callers ensures HandOk(t, b) { assert HandOk(s, b); }
  }

  lemma PushKeepsInv(s: State, a: Caller)
    requires Inv(s) && Enabled(s, Push(a))
    ensures Inv(DoPush(s, a))
  {
    var t := DoPush(s, a);
    assert HandOk(s, a);
    forall i | 0 <= i < |t.chan| ensures PooledOk(t, i) { if i < |s.chan| { assert PooledOk(s, i); } }
    forall b | b in t.callers ensures HandOk(t, b) { assert HandOk(s, b); }
  }

  /** Closing a region that is in no hands and not in the channel any more. */
  lemma ShutKeepsInv(s: State, r: RegionId, ok: bool)
    requires Inv(s) && r in s.regions && r !in s.chan && s.drain != Holding(r)
    requires forall b :: b in s.callers ==> Hand(s.callers[b]) != Some(r)
    ensures Inv(Shut(s, r, ok))
  {
    var t := Shut(s, r, ok);
    forall i | 0 <= i < |t.chan| ensures PooledOk(t, i) { assert PooledOk(s, i); }
    forall b | b in t.callers ensures HandOk(t, b) { assert HandOk(s, b); }
  }

  lemma DrainKeepsInv(s: State, l: Label)
    requires Inv(s) && Enabled(s, l) && (l == ClosePool || l == DrainTake || l == DrainEnd)
    ensures Inv(Step(s, l))
  {
    var t := Step(s, l);
    if l == DrainTake { assert PooledOk(s, 0); }
    forall i | 0 <= i < |t.chan| ensures PooledOk(t, i) { assert PooledOk(s, if l == DrainTake then i + 1 else i); }
    forall b | b in t.callers ensures HandOk(t, b) { assert HandOk(s, b); }
  }

  lemma DrainCloseKeepsInv(s: State, ok: bool)
    requires Inv(s) && Enabled(s, DrainClose(ok))
    ensures Inv(Step(s, DrainClose(ok)))
  {
    var r := s.drain.r;
    var u := s.(drain := Taking);
    forall i | 0 <= i < |u.chan| ensures PooledOk(u, i) { assert PooledOk(s, i); }
    forall b | b in u.callers ensures HandOk(u, b) { assert HandOk(s, b); }
    PooledRegions(s);
    forall b | b in u.callers ensures Hand(u.callers[b]) != Some(r) { assert HandOk(s, b); }
    ShutKeepsInv(u, r, ok);
  }

  /** Every step, by every caller and by the closer, keeps the invariant. */
  lemma StepKeepsInv(s: State, l: Label)
    requires Inv(s) && Enabled(s, l)
    ensures Inv(Step(s, l))
  {
    match l
    case Admit(a) => MoveKeepsInv(s, a, Admitted);
    case Miss(a) => MoveKeepsInv(s, a, Provisioning);
    case Take(a) => TakeKeepsInv(s, a);
    case Provision(a, r) => GiveKeepsInv(s, a, r, s.size);
    case ProvisionFails(a) => LeaveKeepsInv(s, a);
    case Register(a, r, n) => GiveKeepsInv(s, a, r, n);
    case Write(a, data) => WriteKeepsInv(s, a, data);
    case Release(a) => MoveKeepsInv(s, a, DoRelease(s, a).callers[a]);
    case CloseOwn(a) => MoveKeepsInv(s, a, Closing(s.callers[a].r));
    case Push(a) => PushKeepsInv(s, a);
    case CloseRegion(a, ok) =>
      assert HandOk(s, a);
      LeaveKeepsInv(s, a);
      ShutKeepsInv(Leave(s, a), s.callers[a].r, ok);
    case DrainClose(ok) => DrainCloseKeepsInv(s, ok);
    case _ => DrainKeepsInv(s, l);
  }
}
