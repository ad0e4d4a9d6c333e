/**
 The six posting functions of fi/messaging.go, fi/rma.go and fi/tagged.go, run by one
 goroutine at a time.  The provider may refuse any post; `posts` is what it accepted.
 */
module Posting {
  import opened Basics
  import opened Runtime
  import opened Regions

  type Address = nat

  /** FI_ADDR_UNSPEC, the largest 64-bit address. */
  const UNSPECIFIED: Address := 0xFFFF_FFFF_FFFF_FFFF

  /** A byte slice given to a posting function: Go memory, or a view of C memory such as the bytes of a region. */
  datatype View = InGo(slice: Slice) | InC(a: Addr, size: nat)

  function Len(v: View): nat {
    match v
    case InGo(s) => s.len
    case InC(_, n) => n
  }

  /** The slice exists; a view of C memory is one of a region. */
  predicate Readable(w: World, v: View) {
    match v
    case InGo(s) => InBounds(w.user, s)
    case InC(a, n) => n > 0 ==> a in w.live && w.live[a].owner == Mapped && n <= |w.live[a].bytes|
  }

  function BytesOf(w: World, v: View): (r: seq<Byte>)
    requires Readable(w, v)
    ensures |r| == Len(v)
  {
    match v
    case InGo(s) => Load(w.user, s)
    case InC(a, n) => if n == 0 then [] else w.live[a].bytes[..n]
  }

  /** What the provider accepted, with the bytes that a transmit operation reads when it is posted. */
  datatype Post =
    | Injected(bytes: seq<Byte>, dest: Address)
    | Sent(bytes: seq<Byte>, dest: Address, p: Addr)
    | Receiving(a: Addr, size: nat, source: Address, p: Addr)
    | Reading(a: Addr, size: nat, remote: Address, key: nat, offset: nat, p: Addr)
    | Writing(bytes: seq<Byte>, remote: Address, key: nat, offset: nat, p: Addr)
    | TaggedSent(bytes: seq<Byte>, dest: Address, tag: nat, p: Addr)
    | TaggedReceiving(a: Addr, size: nat, source: Address, tag: nat, ignore: nat, p: Addr)

  /** The arguments of a provider call that transmits, without memory and context. */
  datatype Target =
    | ToPeer(dest: Address)
    | ToRemote(remote: Address, key: nat, offset: nat)
    | ToTag(dest: Address, tag: nat)

  function Transmission(t: Target, bytes: seq<Byte>, p: Addr): Post {
    match t
    case ToPeer(dest) => Sent(bytes, dest, p)
    case ToRemote(remote, key, offset) => Writing(bytes, remote, key, offset, p)
    case ToTag(dest, tag) => TaggedSent(bytes, dest, tag, p)
  }

  /** The arguments of a provider call that fills memory, without memory and context. */
  datatype Origin =
    | FromPeer(source: Address)
    | FromRemote(remote: Address, key: nat, offset: nat)
    | FromTag(source: Address, tag: nat, ignore: nat)

  function Expectation(o: Origin, a: Addr, size: nat, p: Addr): Post {
    match o
    case FromPeer(source) => Receiving(a, size, source, p)
    case FromRemote(remote, key, offset) => Reading(a, size, remote, key, offset, p)
    case FromTag(source, tag, ignore) => TaggedReceiving(a, size, source, tag, ignore, p)
  }

  datatype TaggedSendRequest = TaggedSendRequest(buffer: View, dest: Address, tag: nat, context: CompletionContext?)
  datatype TaggedRecvRequest =
    TaggedRecvRequest(buffer: Slice, source: Address, tag: nat, ignore: nat, context: CompletionContext?)
  datatype SendRequest = SendRequest(buffer: View, dest: Address, context: CompletionContext?, region: MemoryRegion?)
  datatype RecvRequest = RecvRequest(buffer: Slice, source: Address, context: CompletionContext?, region: MemoryRegion?)
  datatype ReadRequest =
    ReadRequest(buffer: Slice, remote: Address, key: nat, offset: nat, context: CompletionContext?,
                region: MemoryRegion?)
  datatype WriteRequest =
    WriteRequest(buffer: View, remote: Address, key: nat, offset: nat, context: CompletionContext?,
                 region: MemoryRegion?)

  // ---------------------------------------------------------------- what a post can fail with

  /**
   What malloc and the provider answer in the course of a post: two addresses, whether inject is refused, a status.
   */
  datatype Answers = Answers(token: Addr, staging: Addr, refused: bool, status: int)

  /** The first of two checks that fails. */
  function Failing(a: Option<Error>, b: Option<Error>): Option<Error> {
    if a.Some? then a else b
  }

  /** ensureContext fails for a context that is released, and for want of memory for the token of a new one. */
  ghost function ContextError(live: set<Addr>, c: CompletionContext?, at: Addr): Option<Error>
    reads c
  {
    if c != null && c.closed then Some(ContextReleased)
    else if c == null && !Grants(live, at) then Some(AllocFailed)
    else None
  }

  /** A region must be open and local and hold the message; a staging buffer must be there or malloc grant it. */
  ghost function MemoryError(live: set<Addr>, c: CompletionContext, region: MemoryRegion?, size: nat, at: Addr)
      : Option<Error>
    reads c, region
  {
    if region != null then
      Failing(EnsureRegionAccess(region, FI_MR_LOCAL), if size > region.length then Some(TooLong) else None)
    else if c.Room(live, size, at) then None
    else Some(AllocFailed)
  }

  /** The same for a post that is about to begin, with a context of the caller's or a new one whose token is `token`. */
  ghost function RequestError(live: set<Addr>, c: CompletionContext?, region: MemoryRegion?, size: nat, ans: Answers)
      : Option<Error>
    reads c, region
  {
    if c != null then MemoryError(live, c, region, size, ans.staging)
    else if region != null then
      Failing(EnsureRegionAccess(region, FI_MR_LOCAL), if size > region.length then Some(TooLong) else None)
    else if size == 0 || Grants(live + {ans.token}, ans.staging) then None
    else Some(AllocFailed)
  }

  function StatusError(status: int): Option<Error> {
    if status == 0 then None else Some(Provider(status))
  }

  // ---------------------------------------------------------------- everything but one context

  /** The live blocks that do not belong to the context `p`. */
  ghost function Others(w: World, p: Addr): map<Addr, Block> {
    map a | a in w.live && a != p && w.live[a].owner != Staging(p) :: w.live[a]
  }

  ghost function RegionMemory(w: World): map<Addr, Block> {
    map a | a in w.live && w.live[a].owner == Mapped :: w.live[a]
  }

  /** Nothing differs but what belongs to the context `p`, the user's memory and the log. */
  ghost predicate Elsewhere(w: World, t: World, p: Addr) {
    Others(t, p) == Others(w, p) && t.ctxs - {p} == w.ctxs - {p} && RegionMemory(t) == RegionMemory(w)
  }

  lemma MintElsewhere(w: World, p: Addr, bytes: seq<Byte>)
    requires p !in w.live
    ensures Elsewhere(w, Minted(w, p, bytes), p)
  {
  }

  lemma StageElsewhere(w: World, p: Addr, a: Addr, bytes: seq<Byte>)
    requires Ok(w) && p in w.ctxs && (a != NIL ==> a !in w.live - {w.ctxs[p].buffer})
    ensures Elsewhere(w, Staged(w, p, a, bytes), p)
  {
    assert CtxOk(w, p);
    NilIsDead(w);
    assert Others(Staged(w, p, a, bytes), p) == Others(w, p);
    assert RegionMemory(Staged(w, p, a, bytes)) == RegionMemory(w);
  }

  lemma PokeElsewhere(w: World, p: Addr, a: Addr, data: seq<Byte>)
    requires a in w.live && w.live[a].owner == Staging(p) && |data| <= |w.live[a].bytes|
    ensures Elsewhere(w, Poked(w, a, data), p)
  {
    assert Others(Poked(w, a, data), p) == Others(w, p);
    assert RegionMemory(Poked(w, a, data)) == RegionMemory(w);
  }

  /** What a release leaves is what did not belong to the context. */
  lemma ReleaseElsewhere(w: World, p: Addr, runComplete: bool)
    requires Ok(w) && p in w.ctxs
    ensures Released(w, p, runComplete).live == Others(w, p) && Released(w, p, runComplete).ctxs == w.ctxs - {p}
  {
    ReleaseFreesItsOwn(w, p, runComplete);
  }

  /** Nothing belongs to a context that does not exist. */
  lemma NoneOfItsOwn(w: World, p: Addr)
    requires Ok(w) && p !in w.live
    ensures Others(w, p) == w.live && p !in w.ctxs
  {
    TokensAreLive(w);
    assert p !in w.ctxs;
    assert forall a :: a in w.live ==> w.live[a].owner != Staging(p);
  }

  /** The context is gone and nothing of it is left; all else is as it was. */
  ghost predicate Withdrawn(w: World, t: World, p: Addr) {
    t.live == Others(w, p) && t.ctxs == w.ctxs - {p}
  }

  /** What a post with this buffer and region transmits: the front of the region if there is one, else the buffer. */
  function Outgoing(w: World, buffer: View, region: MemoryRegion?): seq<Byte>
    requires Readable(w, buffer)
    reads region
  {
    if region == null then BytesOf(w, buffer)
    else if !region.open || region.buffer !in w.live || Len(buffer) > |w.live[region.buffer].bytes| then []
    else if Len(buffer) == 0 then w.live[region.buffer].bytes
    else w.live[region.buffer].bytes[..Len(buffer)]
  }

  /** Reading Go memory or a region gives the same whatever happened to one context. */
  lemma ElsewhereReads(w: World, t: World, p: Addr, v: View, region: MemoryRegion?)
    requires Elsewhere(w, t, p) && t.user == w.user && Readable(w, v)
    requires region != null ==> region.ValidIn(w.live)
    ensures Readable(t, v) && BytesOf(t, v) == BytesOf(w, v)
    ensures region != null ==> region.ValidIn(t.live)
    ensures Outgoing(t, v, region) == Outgoing(w, v, region)
  {
    if v.InC? && v.size > 0 {
      assert v.a in RegionMemory(w) && v.a in RegionMemory(t);
    }
    if region != null && region.open {
      assert region.buffer in RegionMemory(w) && region.buffer in RegionMemory(t);
    }
  }

  /** The bytes of a buffer. */
  method Fetch(g: Process, v: View) returns (bytes: seq<Byte>)
    requires Readable(g.Abs(), v)
    ensures bytes == BytesOf(g.Abs(), v)
  {
    bytes := if v.InGo? then Load(g.user, v.slice) else if v.size == 0 then [] else g.live[v.a].bytes[..v.size];
  }

  /** A context given by the caller for a send or write: known to the process, and without a slice to copy back into. */
  ghost predicate Sendable(g: Process, c: CompletionContext?)
    reads g, g.registry.Values, c
  {
    c != null ==> g.Knows(c) && c.copyBack == None
  }

  /** The same for a receive or read: it has no staging buffer either, so it was not posted before. */
  ghost predicate Usable(g: Process, c: CompletionContext?)
    reads g, g.registry.Values, c
  {
    Sendable(g, c) && (c != null ==> c.buffer == NIL)
  }

  /** ensureContext: the caller's context unless it is released already, or a new one. */
  method EnsureContext(g: Process, c: CompletionContext?, at: Addr)
      returns (ctx: CompletionContext?, err: Option<Error>)
    requires g.Valid() && (c != null ==> g.Knows(c))
    modifies g`live, g`registry
    ensures g.Valid() && (ctx == null <==> err.Some?)
    ensures err == old(ContextError(g.live.Keys, c, at))
    ensures ctx == null || c != null ==> g.Abs() == old(g.Abs()) && g.registry == old(g.registry)
    ensures ctx != null ==> if c != null then ctx == c
                            else fresh(ctx) && ctx.ptr == at && g.live.Keys == old(g.live.Keys) + {at}
    ensures ctx != null ==> Working(g, old(g.Abs()), old(g.registry), c, ctx)
    ensures c == null && ctx != null ==> ctx.copyBack == None && ctx.buffer == NIL
  {
    if c != null {
      if c.closed {
        return null, Some(ContextReleased);
      }
      assert g.registry == g.registry[c.ptr := c];
      return c, None;
    }
    ghost var w := g.Abs();
    ctx := g.NewCompletionContext(at);
    if ctx == null {
      return null, Some(AllocFailed);
    }
    MintElsewhere(w, ctx.ptr, g.live[ctx.ptr].bytes);
    NoneOfItsOwn(w, ctx.ptr);
    return ctx, None;
  }

  /** ensureContext at the start of a post, with what is known by then of the memory check to come. */
  method Begin(g: Process, c: CompletionContext?, ghost region: MemoryRegion?, ghost size: nat, ans: Answers)
      returns (ctx: CompletionContext?, err: Option<Error>)
    requires g.Valid() && (c != null ==> g.Knows(c))
    modifies g`live, g`registry
    ensures g.Valid() && (ctx == null <==> err.Some?)
    ensures err == old(ContextError(g.live.Keys, c, ans.token))
    ensures ctx == null || c != null ==> g.Abs() == old(g.Abs()) && g.registry == old(g.registry)
    ensures ctx != null ==> if c != null then ctx == c else fresh(ctx)
    ensures ctx != null ==> Working(g, old(g.Abs()), old(g.registry), c, ctx)
    ensures c == null && ctx != null ==> ctx.copyBack == None && ctx.buffer == NIL
    ensures ctx != null ==>
              MemoryError(g.live.Keys, ctx, region, size, ans.staging)
              == old(RequestError(g.live.Keys, c, region, size, ans))
  {
    ghost var live := g.live.Keys;
    ctx, err := EnsureContext(g, c, ans.token);
    if c == null && ctx != null {
      assert Grants(live + {ans.token} - {NIL}, ans.staging) <==> Grants(live + {ans.token}, ans.staging);
    }
  }

  /**
   A failing exit, seen from the world `w` and registry before the call.  Without a context of the caller's, C heap
   and registry are exactly as before.  The caller's own context was either not touched or released, with its
   token, and nothing of it is left.
   */
  ghost predicate CleanFailure(g: Process, w: World, registry: map<Addr, CompletionContext>, c: CompletionContext?)
    reads g, g.registry.Values, c
  {
    || (g.live == w.live && g.Ctxs() == w.ctxs && g.registry == registry)
    || (c != null && c.closed && Withdrawn(w, g.Abs(), c.ptr) && g.registry == registry - {c.ptr})
  }

  /** The context that a call with the caller's context `c` works on, somewhere between ensureContext and the post. */
  ghost predicate Working(g: Process, w: World, registry: map<Addr, CompletionContext>, c: CompletionContext?,
                          ctx: CompletionContext)
    reads g, g.registry.Values, ctx
  {
    && !ctx.closed && g.Knows(ctx) && Elsewhere(w, g.Abs(), ctx.ptr) && g.user == w.user
    && g.registry == registry[ctx.ptr := ctx]
    && (if c != null then ctx == c else ctx.ptr !in registry && Others(w, ctx.ptr) == w.live && ctx.ptr !in w.ctxs)
  }

  /**
   The user's memory after a receive or read that failed with `err`.  If the buffer was to be staged, was not empty, and
   the provider was called, the release has copied the unused staging buffer, as malloc left it, into the caller's
   slice; otherwise the memory is as before.
   */
  predicate LeftBy(u: map<BufId, seq<Byte>>, v: map<BufId, seq<Byte>>, s: Slice, staged: bool, err: Error,
                   stale: seq<Byte>) {
    if staged && s.len > 0 && err.Provider? then InBounds(u, s) && |stale| == s.len && v == Save(u, s, stale)
    else v == u
  }

  /** What the release of a context with this slice registered, and this staging buffer, leaves of the user's memory. */
  lemma ReleaseLeaves(w: World, p: Addr, s: Slice, staged: bool, err: Error, stale: seq<Byte>)
    requires Ok(w) && p in w.ctxs
    requires if staged && s.len > 0 && err.Provider? then
               && w.ctxs[p].copyBack == Some(s) && w.ctxs[p].buffer in w.live
               && s.len <= |w.live[w.ctxs[p].buffer].bytes|
               && stale == w.live[w.ctxs[p].buffer].bytes[..s.len]
             else w.ctxs[p].copyBack == None || w.ctxs[p].buffer == NIL
    ensures LeftBy(w.user, FilledBy(w, p), s, staged, err, stale)
  {
    NilIsDead(w);
    assert CtxOk(w, p);
  }

  /** The failed call is then visible in the caller's slice, unless the stale bytes happen to be those it had. */
  lemma StaleBytesShow(u: map<BufId, seq<Byte>>, v: map<BufId, seq<Byte>>, s: Slice, errno: int, stale: seq<Byte>)
    requires s.len > 0 && LeftBy(u, v, s, true, Provider(errno), stale)
    ensures Load(v, s) == stale && (v == u <==> Load(u, s) == stale)
  {
    if Load(u, s) == stale {
      assert u[s.buf] == u[s.buf][..s.off] + Load(u, s) + u[s.buf][s.off + s.len..];
    }
  }

  /** A receive of one byte posted without region: its staging buffer as malloc left it, and a slice that holds a 1. */
  function StagedReceive(): World {
    World(map[1 := Block(Token, [0]), 2 := Block(Staging(1), [0])], map[0 := [1]],
          map[1 := Runtime.Ctx(None, [], [], 2, 1, Some(Slice(0, 0, 1)))], [])
  }

  /** When the provider refuses it, the release on that exit turns the 1 into the 0 of the staging buffer. */
  lemma FailedReceiveChangesTheSlice()
    ensures var w, s := StagedReceive(), Slice(0, 0, 1);
            var t := Released(w, 1, false);
            && Ok(w) && InBounds(w.user, s) && Load(w.user, s) == [1]
            && InBounds(t.user, s) && Load(t.user, s) == [0]
            && LeftBy(w.user, t.user, s, true, Provider(11), [0])
  {
    var w, s := StagedReceive(), Slice(0, 0, 1);
    forall a | a in w.live ensures BlockOk(w, a) { }
    forall p | p in w.ctxs ensures CtxOk(w, p) { }
    assert w.live[2].bytes[..1] == [0];
    ReleaseLeaves(w, 1, s, true, Provider(11), [0]);
    StaleBytesShow(w.user, Released(w, 1, false).user, s, 11, [0]);
  }

  /** Release on a failing exit: whatever was done for this context since `w` is undone. */
  method Withdraw(g: Process, c: CompletionContext?, ctx: CompletionContext, ghost w: World,
                  ghost registry: map<Addr, CompletionContext>)
    requires g.Valid() && Working(g, w, registry, c, ctx)
    modifies g, ctx
    ensures g.Valid() && CleanFailure(g, w, registry, c) && ctx.closed
    ensures g.user == old(FilledBy(g.Abs(), ctx.ptr))
    ensures old(ctx.copyBack) == None ==> g.user == w.user
  {
    ReleaseElsewhere(g.Abs(), ctx.ptr, false);
    Takeable(g.Abs(), ctx.ptr);
    if c == null {
      assert registry[ctx.ptr := ctx] - {ctx.ptr} == registry;
    } else {
      assert registry[ctx.ptr := ctx] - {ctx.ptr} == registry - {ctx.ptr};
    }
    ctx.Release(g);
  }

  /**
   What a context holds when the receive or read it was made for has failed: bytes to copy back only after a provider
   call.
   */
  ghost predicate Holds(g: Process, ctx: CompletionContext, buffer: Slice, staged: bool, err: Error, stale: seq<Byte>)
    reads g, ctx
  {
    if staged && buffer.len > 0 && err.Provider? then
      && ctx.copyBack == Some(buffer) && ctx.buffer in g.live && buffer.len <= |g.live[ctx.buffer].bytes|
      && stale == g.live[ctx.buffer].bytes[..buffer.len]
    else ctx.copyBack == None || ctx.buffer == NIL
  }

  /** Release on a failing exit of a receive or read. */
  method WithdrawExpected(g: Process, c: CompletionContext?, ctx: CompletionContext, buffer: Slice, ghost staged: bool,
                          ghost err: Error, ghost stale: seq<Byte>, ghost w: World,
                          ghost registry: map<Addr, CompletionContext>)
    requires g.Valid() && Working(g, w, registry, c, ctx) && InBounds(w.user, buffer)
    requires Holds(g, ctx, buffer, staged, err, stale)
    modifies g, ctx
    ensures g.Valid() && CleanFailure(g, w, registry, c) && ctx.closed
    ensures LeftBy(w.user, g.user, buffer, staged, err, stale)
  {
    ReleaseLeaves(g.Abs(), ctx.ptr, buffer, staged, err, stale);
    Withdraw(g, c, ctx, w, registry);
  }

  /** The region of a request, checked, with the length of the message: the whole region if the buffer is empty. */
  method CheckRegion(region: MemoryRegion, size: nat) returns (n: nat, err: Option<Error>)
    ensures err == Some(InvalidHandle) <==> !region.open || region.buffer == NIL
    ensures err == Some(InsufficientAccess) <==>
              region.open && region.buffer != NIL && region.access & FI_MR_LOCAL == 0
    ensures err == Some(TooLong) <==>
              region.open && region.buffer != NIL && region.access & FI_MR_LOCAL != 0 && size > region.length
    ensures err.Some? ==> err.value in {InvalidHandle, InsufficientAccess, TooLong}
    ensures err == None ==> n == if size == 0 then region.length else size
    ensures err
            == Failing(EnsureRegionAccess(region, FI_MR_LOCAL), if size > region.length then Some(TooLong) else None)
  {
    err := EnsureRegionAccess(region, FI_MR_LOCAL);
    if err.Some? {
      return 0, err;
    }
    if size == 0 {
      return region.length, None;
    }
    if size > region.length {
      return 0, Some(TooLong);
    }
    return size, None;
  }

  /** The memory a transmit operation is posted with: the region, or the staging buffer with a copy of the message. */
  method PrepareOut(g: Process, ctx: CompletionContext, buffer: View, region: MemoryRegion?, at: Addr)
      returns (a: Addr, n: nat, err: Option<Error>)
    requires g.Valid() && g.Knows(ctx) && !ctx.closed && ctx.copyBack == None && Readable(g.Abs(), buffer)
    requires region != null ==> region.Valid(g)
    modifies g`live, ctx`buffer, ctx`bufCap
    ensures g.Valid() && g.Knows(ctx) && Elsewhere(old(g.Abs()), g.Abs(), ctx.ptr)
    ensures err == None && n > 0 ==> a in g.live && n <= |g.live[a].bytes|
    ensures err == None ==> Outgoing(old(g.Abs()), buffer, region) == if n == 0 then [] else g.live[a].bytes[..n]
    ensures err == None && region == null && n > 0 ==> a == ctx.buffer
    ensures err == old(MemoryError(g.live.Keys, ctx, region, Len(buffer), at))
  {
    if region != null {
      n, err := CheckRegion(region, Len(buffer));
      return region.buffer, n, err;
    }
    if Len(buffer) == 0 {
      return NIL, 0, None;
    }
    a, err := Stage(g, ctx, buffer, at);
    return a, Len(buffer), err;
  }

  lemma ElsewhereTrans(u: World, v: World, w: World, p: Addr)
    requires Elsewhere(u, v, p) && Elsewhere(v, w, p)
    ensures Elsewhere(u, w, p)
  {
  }

  /** ensureBuffer touches nothing of any other context. */
  method OwnBuffer(g: Process, ctx: CompletionContext, size: nat, at: Addr) returns (a: Addr, ok: bool)
    requires g.Valid() && g.Knows(ctx) && !ctx.closed && ctx.copyBack == None && size > 0
    modifies g`live, ctx`buffer, ctx`bufCap
    ensures g.Valid() && g.Knows(ctx) && Elsewhere(old(g.Abs()), g.Abs(), ctx.ptr)
    ensures ok <==> old(ctx.Room(g.live.Keys, size, at))
    ensures ok ==> a == ctx.buffer && a != NIL && ctx.bufCap >= size
                   && a in g.live && g.live[a].owner == Staging(ctx.ptr) && size <= |g.live[a].bytes|
  {
    ghost var w := g.Abs();
    ghost var kept := ctx.buffer != NIL && ctx.bufCap >= size;
    NilIsDead(w);
    a, ok := ctx.EnsureBuffer(g, size, at);
    if !kept {
      StageElsewhere(w, ctx.ptr, a, if ok then g.live[a].bytes else []);
    }
    assert CtxOk(g.Abs(), ctx.ptr);
    NilIsDead(g.Abs());
  }

  /** A copy of the message in the staging buffer. */
  method Stage(g: Process, ctx: CompletionContext, buffer: View, at: Addr) returns (a: Addr, err: Option<Error>)
    requires g.Valid() && g.Knows(ctx) && !ctx.closed && ctx.copyBack == None && Readable(g.Abs(), buffer)
             && Len(buffer) > 0
    modifies g`live, ctx`buffer, ctx`bufCap
    ensures g.Valid() && g.Knows(ctx) && Elsewhere(old(g.Abs()), g.Abs(), ctx.ptr)
    ensures err == if old(ctx.Room(g.live.Keys, Len(buffer), at)) then None else Some(AllocFailed)
    ensures err == None ==> a == ctx.buffer && a in g.live && Len(buffer) <= |g.live[a].bytes|
                            && g.live[a].bytes[..Len(buffer)] == BytesOf(old(g.Abs()), buffer)
  {
    var data := Fetch(g, buffer);
    var ok;
    a, ok := OwnBuffer(g, ctx, Len(buffer), at);
    if !ok {
      return NIL, Some(AllocFailed);
    }
    ghost var w := g.Abs();
    PokeElsewhere(w, ctx.ptr, a, data);
    g.Memcpy(a, data);
    ElsewhereTrans(old(g.Abs()), w, g.Abs(), ctx.ptr);
    return a, None;
  }

  /** The memory a receive or read is posted with, and the slice to fill registered for copy-back. */
  method PrepareIn(g: Process, ctx: CompletionContext, buffer: Slice, region: MemoryRegion?, at: Addr)
      returns (a: Addr, n: nat, err: Option<Error>)
    requires g.Valid() && g.Knows(ctx) && !ctx.closed && ctx.copyBack == None && ctx.buffer == NIL
    requires InBounds(g.user, buffer)
    requires region != null ==> region.Valid(g)
    modifies g`live, ctx`buffer, ctx`bufCap, ctx`copyBack
    ensures g.Valid() && g.Knows(ctx) && Elsewhere(old(g.Abs()), g.Abs(), ctx.ptr)
    ensures err == old(MemoryError(g.live.Keys, ctx, region, buffer.len, at))
    ensures err.Some? ==> ctx.copyBack == None
    ensures err == None ==> ctx.copyBack == if buffer.len > 0 then Some(buffer) else None
    ensures err == None && n > 0 ==> a in g.live && n <= |g.live[a].bytes|
    ensures region == null && err == None ==> n == buffer.len && a == ctx.buffer
    ensures region != null && err == None ==>
              a == region.buffer && n == (if buffer.len == 0 then region.length else buffer.len) && ctx.buffer == NIL
  {
    if region != null {
      n, err := CheckRegion(region, buffer.len);
      if err == None && buffer.len > 0 {
        ctx.SetCopyBack(g, buffer);
      }
      return region.buffer, n, err;
    }
    if buffer.len == 0 {
      return NIL, 0, None;
    }
    var ok;
    a, ok := OwnBuffer(g, ctx, buffer.len, at);
    if !ok {
      return NIL, 0, Some(AllocFailed);
    }
    ghost var w := g.Abs();
    ctx.SetCopyBack(g, buffer);
    ElsewhereTrans(old(g.Abs()), w, g.Abs(), ctx.ptr);
    return a, buffer.len, None;
  }

  /** PrepareOut in terms of the world before the call, with what the provider will find in that memory. */
  method BeginOut(g: Process, c: CompletionContext?, ctx: CompletionContext, buffer: View, region: MemoryRegion?,
                  at: Addr, ghost w: World, ghost registry: map<Addr, CompletionContext>)
      returns (bytes: seq<Byte>, err: Option<Error>)
    requires g.Valid() && Working(g, w, registry, c, ctx) && ctx.copyBack == None
    requires Readable(w, buffer) && (region != null ==> region.ValidIn(w.live))
    modifies g`live, ctx`buffer, ctx`bufCap
    ensures g.Valid() && Working(g, w, registry, c, ctx)
    ensures err == None ==> bytes == Outgoing(w, buffer, region)
    ensures err == old(MemoryError(g.live.Keys, ctx, region, Len(buffer), at))
  {
    ghost var w1 := g.Abs();
    ElsewhereReads(w, w1, ctx.ptr, buffer, region);
    var a, n;
    a, n, err := PrepareOut(g, ctx, buffer, region, at);
    ElsewhereTrans(w, w1, g.Abs(), ctx.ptr);
    bytes := if err.Some? || n == 0 then [] else g.live[a].bytes[..n];
  }

  /** PrepareIn in terms of the world before the call. */
  method BeginIn(g: Process, c: CompletionContext?, ctx: CompletionContext, buffer: Slice, region: MemoryRegion?,
                 at: Addr, ghost w: World, ghost registry: map<Addr, CompletionContext>)
      returns (a: Addr, n: nat, err: Option<Error>)
    requires g.Valid() && Working(g, w, registry, c, ctx) && ctx.copyBack == None && ctx.buffer == NIL
    requires InBounds(w.user, buffer) && (region != null ==> region.ValidIn(w.live))
    modifies g`live, ctx`buffer, ctx`bufCap, ctx`copyBack
    ensures g.Valid() && Working(g, w, registry, c, ctx)
    ensures err == old(MemoryError(g.live.Keys, ctx, region, buffer.len, at))
    ensures err.Some? ==> ctx.copyBack == None
    ensures err == None ==> ctx.copyBack == (if buffer.len > 0 then Some(buffer) else None)
                            && (n > 0 ==> a in g.live && n <= |g.live[a].bytes|)
    ensures region == null && err == None ==> n == buffer.len && a == ctx.buffer
    ensures region != null && err == None ==>
              a == region.buffer && n == (if buffer.len == 0 then region.length else buffer.len) && ctx.buffer == NIL
  {
    ghost var w1 := g.Abs();
    ElsewhereReads(w, w1, ctx.ptr, InC(NIL, 0), region);
    a, n, err := PrepareIn(g, ctx, buffer, region, at);
    ElsewhereTrans(w, w1, g.Abs(), ctx.ptr);
  }
}
