/**
 sendAsync and ReceiveAsync with their preparation, run by one goroutine at a time.  Running a release closure is
 an entry of the log; what the closures do is proved of MRPool.Release and MemoryRegion.Close.
 */
module Sending {
  import opened Basics
  import opened Runtime
  import opened Regions
  import opened Pools
  import opened Posting
  import opened Endpoints
  import C = Clients
  import W = Waiting

  datatype EndpointType = Rdm | Dgram | Msg

  datatype Error =
    | Closed
    | Empty
    | DispatcherFailed
    | DestinationRequired
    | Region(error: Regions.Error)
    | Post(error: Regions.Error)

  /** The fields of a client that its posting methods use, besides its counters and operations. */
  class Transport {
    const endpoint: Endpoint
    const pool: MRPool?
    const domain: Domain
    const requiresMR: bool
    const mrAccess: Flags
    const kind: EndpointType

    constructor (endpoint: Endpoint, pool: MRPool?, domain: Domain, requiresMR: bool, mrAccess: Flags,
                 kind: EndpointType)
      ensures this.endpoint == endpoint && this.pool == pool && this.domain == domain
      ensures this.requiresMR == requiresMR && this.mrAccess == mrAccess && this.kind == kind
    {
      this.endpoint, this.pool, this.domain := endpoint, pool, domain;
      this.requiresMR, this.mrAccess, this.kind := requiresMR, mrAccess, kind;
    }

    ghost predicate Valid(g: Process)
      reads this, pool, if pool == null then {} else pool.Held(), g`live
    {
      pool != null ==> pool.Valid(g)
    }
  }

  /** Connected endpoints have one peer; the address of the caller is ignored. */
  function Normalised(kind: EndpointType, dest: Address): Address {
    if kind == Msg then UNSPECIFIED else dest
  }

  /** What a request is made of: buffer, region, and the closure that gives the region back. */
  datatype Prepared = Prepared(buffer: View, region: MemoryRegion?, release: Option<C.Closure>)

  /** The request transmits exactly `bytes`, and its region, if it has one, is in the hands of this call alone. */
  ghost predicate Carries(g: Process, t: Transport, p: Prepared, bytes: seq<Byte>)
    reads g, g.registry.Values, p.region, t.pool, if t.pool == null then {} else t.pool.Held()
  {
    && Readable(g.Abs(), p.buffer) && Len(p.buffer) == |bytes| && BytesOf(g.Abs(), p.buffer) == bytes
    && Outgoing(g.Abs(), p.buffer, p.region) == bytes
    && (p.region != null <==> p.release.Some?)
    && (p.region != null ==> p.region.Valid(g) && p.region.open && p.release.value.region == p.region
                             && (t.pool != null ==> t.pool.Apart(p.region)))
  }

  /** Which way a request of this size goes, by the closure that gives its region back. */
  predicate Chosen(t: Transport, size: nat, release: Option<C.Closure>) {
    match release
    case None => (t.pool == null || size > t.pool.size) && !t.requiresMR
    case Some(ToPool(_)) => t.pool != null && size <= t.pool.size
    case Some(CloseRegion(_)) => (t.pool == null || size > t.pool.size) && t.requiresMR
  }

  /** The domain of the client and of its pool requires that local buffers are registered for local access. */
  ghost predicate LocalOnly(t: Transport) {
    t.domain.mrMode & FI_MR_LOCAL != 0 && (t.pool != null ==> t.pool.domain == t.domain)
  }

  // ---------------------------------------------------------------- what a call can fail with

  /** What malloc and the provider answer to a registration on the way, and to the post. */
  datatype Environment = Environment(at: Addr, registered: int, post: Answers)

  predicate FitsPool(t: Transport, size: nat) {
    t.pool != null && size <= t.pool.size
  }

  /** The objects that decide whether there is a region for a request. */
  function Sources(t: Transport): set<object> {
    {t.domain} + if t.pool == null then {} else {t.pool, t.pool.domain}
  }

  /**
   A registration fails for a closed domain, an unsupported mode, malloc's refusal or the provider's, in this order.
   */
  function RegistrationError(d: Domain, live: set<Addr>, env: Environment): Option<Regions.Error>
    reads d
  {
    if !d.open then Some(InvalidHandle)
    else if !d.Able() then Some(CapabilityUnsupported)
    else if !Grants(live, env.at) then Some(AllocFailed)
    else if env.registered != 0 then Some(Provider(env.registered))
    else None
  }

  /** The pool fails if it is closed, or empty and the registration fails; the way without pool, if it registers. */
  function RegionError(live: set<Addr>, t: Transport, size: nat, env: Environment): Option<Regions.Error>
    reads Sources(t)
  {
    if FitsPool(t, size) then
      if t.pool.closed then Some(PoolClosed)
      else if t.pool.chan != [] then None
      else RegistrationError(t.pool.domain, live, env)
    else if t.requiresMR then RegistrationError(t.domain, live, env)
    else None
  }

  /** The request needs a new registration: it fits the pool, which is empty, or the domain requires it. */
  predicate Registers(t: Transport, size: nat)
    reads Sources(t)
  {
    if FitsPool(t, size) then t.pool.chan == [] else t.requiresMR
  }

  /** The live addresses when the request is prepared. */
  function LiveThen(live: set<Addr>, t: Transport, size: nat, env: Environment): set<Addr>
    reads Sources(t)
  {
    if Registers(t, size) then live + {env.at} else live
  }

  /** The region of the request has local access: asked for, by default, or required by the domain. */
  predicate LocalFor(requested: Flags, mode: Flags) {
    requested == 0 || requested & FI_MR_LOCAL != 0 || mode & FI_MR_LOCAL != 0
  }

  /** The check of the posting functions on the region of this request. */
  function AccessError(t: Transport, size: nat): Option<Regions.Error> {
    var access := if FitsPool(t, size) then t.pool.access else t.mrAccess;
    var mode := if FitsPool(t, size) then t.pool.domain.mrMode else t.domain.mrMode;
    if LocalFor(access, mode) then None else Some(InsufficientAccess)
  }

  /** The request goes through a region. */
  predicate UsesRegion(t: Transport, size: nat) {
    FitsPool(t, size) || t.requiresMR
  }

  /** A post without a context of the caller's, with the addresses `live` in use; `inject`: it may be injected. */
  function PostError(live: set<Addr>, t: Transport, size: nat, inject: bool, ans: Answers): Option<Regions.Error>
    reads t.endpoint
  {
    if !t.endpoint.open then Some(InvalidHandle)
    else if !Grants(live, ans.token) then Some(AllocFailed)
    else if inject then None
    else if UsesRegion(t, size) && AccessError(t, size).Some? then AccessError(t, size)
    else if !UsesRegion(t, size) && !Grants(live + {ans.token}, ans.staging) then Some(AllocFailed)
    else if ans.status != 0 then Some(Provider(ans.status))
    else None
  }

  /** The message is short enough to be injected, and the provider takes it that way. */
  predicate Injects(t: Transport, size: nat, ans: Answers) {
    size <= t.endpoint.injectLimit && !ans.refused
  }

  /** What a request that is not refused fails with, if it does. */
  function RequestFailure(live: set<Addr>, t: Transport, size: nat, inject: bool, env: Environment): Option<Error>
    reads Sources(t), t.endpoint
  {
    var e := RegionError(live, t, size, env);
    var f := PostError(LiveThen(live, t, size, env), t, size, inject, env.post);
    if e.Some? then AsRegion(e) else AsPost(f)
  }

  /** The same in terms of the region at hand. */
  ghost function MessageError(live: set<Addr>, t: Transport, region: MemoryRegion?, size: nat, inject: bool,
                              ans: Answers): Option<Regions.Error>
    reads t.endpoint, region
  {
    if !t.endpoint.open then Some(InvalidHandle)
    else Failing(ContextError(live, null, ans.token),
                 if inject then None
                 else Failing(RequestError(live, null, region, size, ans), StatusError(ans.status)))
  }

  lemma RegionAtHand(live: set<Addr>, t: Transport, region: MemoryRegion?, size: nat, inject: bool, ans: Answers)
    requires size > 0 && (region != null ==> size <= region.length)
    requires region != null <==> UsesRegion(t, size)
    requires region != null ==> EnsureRegionAccess(region, FI_MR_LOCAL) == AccessError(t, size)
    ensures MessageError(live, t, region, size, inject, ans) == PostError(live, t, size, inject, ans)
  {
  }

  /** A region that is registered with access `requested` on a domain of this mode. */
  lemma AccessAtHand(r: MemoryRegion, requested: Flags, mode: Flags)
    requires r.open && r.buffer != NIL && r.access == EffectiveAccess(requested, mode)
    ensures EnsureRegionAccess(r, FI_MR_LOCAL) == if LocalFor(requested, mode) then None else Some(InsufficientAccess)
  {
    RegisteredRegionPasses(r, requested, mode);
  }

  /** The pool after the request was prepared: without its first region if that went into the request. */
  function PoolThen(t: Transport, size: nat): seq<MemoryRegion>
    requires t.pool != null
    reads t.pool
  {
    if FitsPool(t, size) && !t.pool.closed && t.pool.chan != [] then t.pool.chan[1..] else t.pool.chan
  }

  function AsRegion(e: Option<Regions.Error>): Option<Error> {
    if e.Some? then Some(Region(e.value)) else None
  }

  function AsPost(e: Option<Regions.Error>): Option<Error> {
    if e.Some? then Some(Post(e.value)) else None
  }

  // ---------------------------------------------------------------- preparing a send

  method PrepareSend(g: Process, t: Transport, payload: Slice, env: Environment)
      returns (p: Prepared, err: Option<Error>)
    requires g.Valid() && t.Valid(g) && InBounds(g.user, payload) && payload.len > 0
    modifies g`live, if t.pool == null then {} else {t.pool}
    ensures g.Valid() && t.Valid(g) && g.Ctxs() == old(g.Ctxs())
    ensures err == AsRegion(old(RegionError(g.live.Keys, t, payload.len, env)))
    ensures t.pool != null ==> t.pool.closed == old(t.pool.closed) && t.pool.chan == old(PoolThen(t, payload.len))
    ensures err.Some? ==> g.live == old(g.live)
    ensures err == None ==> g.live.Keys == old(LiveThen(g.live.Keys, t, payload.len, env))
    ensures err == None ==> Carries(g, t, p, Load(g.user, payload))
    ensures err == None ==> Chosen(t, payload.len, p.release) && (p.release == None ==> g.live == old(g.live))
    ensures err == None && p.region != null ==>
              EnsureRegionAccess(p.region, FI_MR_LOCAL) == AccessError(t, payload.len)
  {
    if t.pool != null && payload.len <= t.pool.size {
      p, err := FromPool(g, t, payload, env);
      return;
    }
    if t.requiresMR {
      p, err := FromDomain(g, t, payload, env);
      return;
    }
    return Prepared(InGo(payload), null, None), None;
  }

  method FromPool(g: Process, t: Transport, payload: Slice, env: Environment)
      returns (p: Prepared, err: Option<Error>)
    requires g.Valid() && t.Valid(g) && InBounds(g.user, payload) && payload.len > 0
    requires t.pool != null && payload.len <= t.pool.size
    modifies g`live, t.pool`chan
    ensures g.Valid() && t.Valid(g)
    ensures err == AsRegion(old(RegionError(g.live.Keys, t, payload.len, env)))
    ensures t.pool.chan == old(PoolThen(t, payload.len))
    ensures err.Some? ==> g.live == old(g.live)
    ensures err == None ==> g.live.Keys == old(LiveThen(g.live.Keys, t, payload.len, env))
    ensures err == None ==> p.release.Some? && p.release.value.ToPool? && Carries(g, t, p, Load(g.user, payload))
    ensures err == None ==> EnsureRegionAccess(p.region, FI_MR_LOCAL) == AccessError(t, payload.len)
  {
    var region;
    region, err := AcquireRegion(g, t, payload.len, env);
    if region == null {
      return Prepared(InGo(payload), null, None), err;
    }
    g.Memcpy(region.buffer, Load(g.user, payload));
    p := Prepared(InC(region.buffer, payload.len), region, Some(C.ToPool(region)));
    return p, None;
  }

  /** A region from the pool for a request that fits. */
  method AcquireRegion(g: Process, t: Transport, size: nat, env: Environment)
      returns (region: MemoryRegion?, err: Option<Error>)
    requires g.Valid() && t.Valid(g) && t.pool != null && 0 < size <= t.pool.size
    modifies g`live, t.pool`chan
    ensures g.Valid() && t.Valid(g) && (region == null <==> err.Some?)
    ensures err == AsRegion(old(RegionError(g.live.Keys, t, size, env)))
    ensures t.pool.chan == old(PoolThen(t, size))
    ensures region == null ==> g.live == old(g.live)
    ensures region != null ==>
              && g.live.Keys == old(LiveThen(g.live.Keys, t, size, env))
              && region.Valid(g) && region.open && size <= region.length && t.pool.Apart(region)
              && EnsureRegionAccess(region, FI_MR_LOCAL) == AccessError(t, size)
  {
    var e;
    region, e := t.pool.Acquire(g, env.at, env.registered);
    if region == null {
      return null, Some(Region(e.value));
    }
    AccessAtHand(region, t.pool.access, t.pool.domain.mrMode);
    return region, None;
  }

  method FromDomain(g: Process, t: Transport, payload: Slice, env: Environment)
      returns (p: Prepared, err: Option<Error>)
    requires g.Valid() && t.Valid(g) && InBounds(g.user, payload) && payload.len > 0
    modifies g`live
    ensures g.Valid() && t.Valid(g)
    ensures err == AsRegion(old(RegistrationError(t.domain, g.live.Keys, env)))
    ensures err.Some? ==> g.live == old(g.live)
    ensures err == None ==> g.live.Keys == old(g.live.Keys) + {env.at}
    ensures err == None ==> p.release.Some? && p.release.value.CloseRegion? && Carries(g, t, p, Load(g.user, payload))
    ensures err == None ==> EnsureRegionAccess(p.region, FI_MR_LOCAL)
                            == if LocalFor(t.mrAccess, t.domain.mrMode) then None else Some(InsufficientAccess)
  {
    var region;
    region, err := RegisterRegion(g, t, Load(g.user, payload), env);
    if region == null {
      return Prepared(InGo(payload), null, None), err;
    }
    p := Prepared(InC(region.buffer, payload.len), region, Some(C.CloseRegion(region)));
    return p, None;
  }

  /** A region of these bytes, registered on the client's domain. */
  method RegisterRegion(g: Process, t: Transport, bytes: seq<Byte>, env: Environment)
      returns (region: MemoryRegion?, err: Option<Error>)
    requires g.Valid() && t.Valid(g) && bytes != []
    modifies g`live
    ensures g.Valid() && t.Valid(g) && (region == null <==> err.Some?)
    ensures err == AsRegion(old(RegistrationError(t.domain, g.live.Keys, env)))
    ensures region == null ==> g.live == old(g.live)
    ensures region != null ==>
              && fresh(region) && region.Valid(g) && region.open && region.length == |bytes|
              && g.live == old(g.live)[region.buffer := Block(Mapped, bytes)] && region.buffer == env.at
              && (t.pool != null ==> t.pool.Apart(region))
              && EnsureRegionAccess(region, FI_MR_LOCAL)
                 == if LocalFor(t.mrAccess, t.domain.mrMode) then None else Some(InsufficientAccess)
  {
    var e;
    region, e := t.domain.RegisterMemory(g, bytes, t.mrAccess, env.at, env.registered);
    if region == null {
      return null, Some(Region(e.value));
    }
    AccessAtHand(region, t.mrAccess, t.domain.mrMode);
    return region, None;
  }

  // ---------------------------------------------------------------- posting

  /** PostSend of a prepared message: exactly this message reaches the provider, or nothing does. */
  method PostMessage(g: Process, t: Transport, p: Prepared, dest: Address, ghost bytes: seq<Byte>, ans: Answers)
      returns (ctx: CompletionContext?, err: Option<Regions.Error>)
    requires g.Valid() && t.Valid(g) && Carries(g, t, p, bytes) && bytes != []
    modifies g, t.endpoint`posts
    ensures g.Valid() && t.Valid(g) && g.user == old(g.user)
    ensures err == old(MessageError(g.live.Keys, t, p.region, |bytes|, Injects(t, |bytes|, ans), ans))
    ensures err.Some? ==>
              && ctx == null && t.endpoint.posts == old(t.endpoint.posts) && g.Ctxs() == old(g.Ctxs())
              && g.live == old(g.live)
    ensures err == None ==> (ctx == null <==> Injects(t, |bytes|, ans))
    ensures err == None && ctx == null ==>
              t.endpoint.posts == old(t.endpoint.posts) + [Injected(bytes, dest)] && g.Ctxs() == old(g.Ctxs())
                && g.live == old(g.live)
    ensures ctx != null ==>
              && err == None && fresh(ctx) && !ctx.closed && g.Knows(ctx)
              && t.endpoint.posts == old(t.endpoint.posts) + [Sent(bytes, dest, ctx.ptr)]
              && ctx.ptr !in old(g.Ctxs()) && g.Ctxs() - {ctx.ptr} == old(g.Ctxs())
  {
    ctx, err := t.endpoint.PostSend(g, SendRequest(p.buffer, dest, null, p.region), ans);
  }

  /** What sendAsync and ReceiveAsync look at before the request: closed, empty, or a recorded dispatcher error. */
  function Refusing(closed: bool, size: nat, recorded: Option<W.Error>): Option<Error> {
    if closed then Some(Closed)
    else if size == 0 then Some(Empty)
    else if recorded.Some? then Some(DispatcherFailed)
    else None
  }

  function Refusal(c: C.Client, size: nat): Option<Error>
    reads c
  {
    Refusing(c.closed, size, c.dispatcherErr)
  }

  /**
   sendAsync.  Success: the provider has exactly one new message, the payload as it was at the call, for the caller's
   destination or, on a connected endpoint, for the one peer, whichever of inject, pooled region, own region and staging
   buffer it took; the send is counted; and the operation is attached to the context the completion will carry, or is
   complete if the message was injected, with its region given back.  Failure: the provider has nothing new, nothing is
   counted, no context is left, and the region that was taken, which pool, size and registration mode decide, is given
   back exactly if the post is what failed.  Which error it is, if any, is decided by the client, the answers of malloc
   and provider, and nothing else.
   */
  method SendAsync(c: C.Client, g: Process, t: Transport, payload: Slice, dest: Address, env: Environment)
      returns (op: C.Operation?, err: Option<Error>, ghost q: Addr, ghost taken: Option<C.Closure>,
               ghost fan: seq<C.Happening>)
    requires g.Valid() && t.Valid(g) && c.OpsNumbered() && InBounds(g.user, payload)
    modifies g, c`sends, c`receives, c`log, c`ops, c`nextOp, t.endpoint`posts, if t.pool == null then {} else {t.pool}
    ensures g.Valid() && t.Valid(g) && c.OpsNumbered() && (op == null <==> err.Some?) && g.user == old(g.user)
    ensures err == if c.closed then Some(Closed)
                   else if payload.len == 0 then Some(Empty)
                   else if c.dispatcherErr.Some? then Some(DispatcherFailed)
                   else if t.kind != Msg && dest == UNSPECIFIED then Some(DestinationRequired)
                   else old(RequestFailure(g.live.Keys, t, payload.len,
                                           payload.len <= t.endpoint.injectLimit && !env.post.refused, env))
    ensures err.Some? ==> Refused(c, t, old(c.sends), old(c.receives), old(c.ops), old(t.endpoint.posts))
                          && g.Ctxs() == old(g.Ctxs()) && c.log == old(c.log) + GivenBack(err.value, taken)
    ensures t.pool != null ==>
              && t.pool.closed == old(t.pool.closed)
              && t.pool.chan == if err.Some? && !err.value.Post? then old(t.pool.chan)
                                else old(PoolThen(t, payload.len))
    ensures err == None || err.value.Post? ==> Chosen(t, payload.len, taken)
    ensures err.Some? ==> g.live.Keys == if err.value.Post? then old(LiveThen(g.live.Keys, t, payload.len, env))
                                         else old(g.live.Keys)
    ensures LocalOnly(t) ==> err != Some(Post(InsufficientAccess))
    ensures op != null ==>
              && fresh(op) && op.kind == C.Send && op.size == payload.len && op.release == taken
              && c.receives == old(c.receives)
              && (op.done <==> payload.len <= t.endpoint.injectLimit && !env.post.refused)
              && if op.done then
                   && t.endpoint.posts == old(t.endpoint.posts)
                        + [Injected(old(Load(g.user, payload)), if t.kind == Msg then UNSPECIFIED else dest)]
                   && g.Ctxs() == old(g.Ctxs()) && CompletedAtOnce(c, op, old(c.sends), old(c.log), fan)
                   && c.ops == old(c.ops)
                 else
                   && c.sends == old(c.sends).(posted := old(c.sends).posted + 1)
                   && c.ops == old(c.ops)[op.id := op] && c.log == old(c.log)
                   && q !in old(g.Ctxs()) && AttachedTo(g.Ctxs(), q, op.id) && g.Ctxs() - {q} == old(g.Ctxs())
                   && t.endpoint.posts == old(t.endpoint.posts)
                        + [Sent(old(Load(g.user, payload)), if t.kind == Msg then UNSPECIFIED else dest, q)]
  {
    err := Refusal(c, payload.len);
    if err.Some? {
      return null, err, NIL, None, [];
    }
    if t.kind != Msg && dest == UNSPECIFIED {
      return null, Some(DestinationRequired), NIL, None, [];
    }
    op, err, q, taken, fan := SendRequested(c, g, t, payload, Normalised(t.kind, dest), env);
  }

  /** sendAsync from prepareSend on, with the destination the provider is to get. */
  method SendRequested(c: C.Client, g: Process, t: Transport, payload: Slice, dest: Address, env: Environment)
      returns (op: C.Operation?, err: Option<Error>, ghost q: Addr, ghost taken: Option<C.Closure>,
               ghost fan: seq<C.Happening>)
    requires g.Valid() && t.Valid(g) && c.OpsNumbered() && InBounds(g.user, payload) && payload.len > 0
    modifies g, c`sends, c`receives, c`log, c`ops, c`nextOp, t.endpoint`posts, if t.pool == null then {} else {t.pool}
    ensures g.Valid() && t.Valid(g) && c.OpsNumbered() && (op == null <==> err.Some?) && g.user == old(g.user)
    ensures err == old(RequestFailure(g.live.Keys, t, payload.len, Injects(t, payload.len, env.post), env))
    ensures err.Some? ==> Refused(c, t, old(c.sends), old(c.receives), old(c.ops), old(t.endpoint.posts))
                          && g.Ctxs() == old(g.Ctxs()) && c.log == old(c.log) + GivenBack(err.value, taken)
    ensures t.pool != null ==>
              && t.pool.closed == old(t.pool.closed)
              && t.pool.chan == if err.Some? && !err.value.Post? then old(t.pool.chan)
                                else old(PoolThen(t, payload.len))
    ensures err == None || err.value.Post? ==> Chosen(t, payload.len, taken)
    ensures err.Some? ==> g.live.Keys == if err.value.Post? then old(LiveThen(g.live.Keys, t, payload.len, env))
                                         else old(g.live.Keys)
    ensures LocalOnly(t) ==> err != Some(Post(InsufficientAccess))
    ensures op != null ==> fresh(op) && op.kind == C.Send && op.size == payload.len && op.release == taken
                           && (op.done <==> Injects(t, payload.len, env.post)) && c.receives == old(c.receives)
    ensures op != null && op.done ==>
              && t.endpoint.posts == old(t.endpoint.posts) + [Injected(old(Load(g.user, payload)), dest)]
              && g.Ctxs() == old(g.Ctxs()) && CompletedAtOnce(c, op, old(c.sends), old(c.log), fan)
              && c.ops == old(c.ops)
    ensures op != null && !op.done ==>
              && c.sends == old(c.sends).(posted := old(c.sends).posted + 1)
              && c.ops == old(c.ops)[op.id := op] && c.log == old(c.log)
              && q !in old(g.Ctxs()) && AttachedTo(g.Ctxs(), q, op.id) && g.Ctxs() - {q} == old(g.Ctxs())
              && t.endpoint.posts == old(t.endpoint.posts) + [Sent(old(Load(g.user, payload)), dest, q)]
  {
    var p;
    p, err := PrepareSend(g, t, payload, env);
    if err.Some? {
      return null, err, NIL, None, [];
    }
    CarriesFits(g, t, p, Load(g.user, payload));
    RegionAtHand(g.live.Keys, t, p.region, payload.len, Injects(t, payload.len, env.post), env.post);
    LocalOnlyIsLocal(t, payload.len);
    op, err, q, fan := SendPrepared(c, g, t, p, dest, payload.len, Load(g.user, payload), env.post);
    taken := p.release;
  }

  /** A region that carries the message is large enough for it. */
  lemma CarriesFits(g: Process, t: Transport, p: Prepared, bytes: seq<Byte>)
    requires Carries(g, t, p, bytes) && bytes != []
    ensures p.region != null ==> |bytes| <= p.region.length
  {
  }

  /** Where the domain requires local registration, every region has local access. */
  lemma LocalOnlyIsLocal(t: Transport, size: nat)
    ensures LocalOnly(t) ==> AccessError(t, size) == None
  {
  }

  /** PostSend, and the release closure if it failed. */
  method SendOrGiveBack(c: C.Client, g: Process, t: Transport, p: Prepared, dest: Address, ghost bytes: seq<Byte>,
                        ans: Answers)
      returns (ctx: CompletionContext?, err: Option<Error>)
    requires g.Valid() && t.Valid(g) && Carries(g, t, p, bytes) && bytes != []
    modifies g, c`log, t.endpoint`posts
    ensures g.Valid() && t.Valid(g) && g.user == old(g.user)
    ensures err == AsPost(old(MessageError(g.live.Keys, t, p.region, |bytes|, Injects(t, |bytes|, ans), ans)))
    ensures err.Some? ==>
              && ctx == null && t.endpoint.posts == old(t.endpoint.posts) && g.live == old(g.live)
              && g.Ctxs() == old(g.Ctxs()) && c.log == old(c.log) + GivenBack(err.value, p.release)
    ensures err == None ==> c.log == old(c.log) && (ctx == null <==> Injects(t, |bytes|, ans))
    ensures err == None && ctx == null ==>
              g.Ctxs() == old(g.Ctxs()) && t.endpoint.posts == old(t.endpoint.posts) + [Injected(bytes, dest)]
    ensures ctx != null ==>
              && fresh(ctx) && !ctx.closed && g.Knows(ctx)
              && t.endpoint.posts == old(t.endpoint.posts) + [Sent(bytes, dest, ctx.ptr)]
              && ctx.ptr !in old(g.Ctxs()) && g.Ctxs() - {ctx.ptr} == old(g.Ctxs())
  {
    var postErr;
    ctx, postErr := PostMessage(g, t, p, dest, bytes, ans);
    err := None;
    if postErr.Some? {
      err := Some(Post(postErr.value));
      GiveBack(c, g, t, p.release);
    }
  }

  /** The operation, and the post: a failing exit leaves nothing of either. */
  method BeginSend(c: C.Client, g: Process, t: Transport, p: Prepared, dest: Address, size: nat, ghost bytes: seq<Byte>,
                   ans: Answers)
      returns (op: C.Operation, ctx: CompletionContext?, err: Option<Error>)
    requires g.Valid() && t.Valid(g) && c.OpsNumbered() && Carries(g, t, p, bytes) && |bytes| == size > 0
    modifies g, c`nextOp, c`log, t.endpoint`posts
    ensures g.Valid() && t.Valid(g) && c.OpsNumbered() && g.user == old(g.user)
    ensures fresh(op) && op.Valid() && !op.once && op.callbacks == [] && op.id < c.nextOp
    ensures op.kind == C.Send && op.size == size && op.release == p.release
    ensures err == AsPost(old(MessageError(g.live.Keys, t, p.region, size, Injects(t, size, ans), ans)))
    ensures err.Some? ==>
              && ctx == null && t.endpoint.posts == old(t.endpoint.posts) && g.live == old(g.live)
              && g.Ctxs() == old(g.Ctxs()) && c.log == old(c.log) + GivenBack(err.value, p.release)
    ensures err == None ==> c.log == old(c.log) && (ctx == null <==> Injects(t, size, ans))
    ensures err == None && ctx == null ==>
              g.Ctxs() == old(g.Ctxs()) && t.endpoint.posts == old(t.endpoint.posts) + [Injected(bytes, dest)]
    ensures ctx != null ==>
              && fresh(ctx) && !ctx.closed && g.Knows(ctx)
              && t.endpoint.posts == old(t.endpoint.posts) + [Sent(bytes, dest, ctx.ptr)]
              && ctx.ptr !in old(g.Ctxs()) && g.Ctxs() - {ctx.ptr} == old(g.Ctxs())
  {
    ghost var before := g.Ctxs();
    op := c.NewOperation(C.Send, size, None, p.release);
    assert g.Ctxs() == before;
    ctx, err := SendOrGiveBack(c, g, t, p, dest, bytes, ans);
  }

  /** sendAsync from the operation on. */
  method SendPrepared(c: C.Client, g: Process, t: Transport, p: Prepared, dest: Address, size: nat,
                      ghost bytes: seq<Byte>, ans: Answers)
      returns (op: C.Operation?, err: Option<Error>, ghost q: Addr, ghost fan: seq<C.Happening>)
    requires g.Valid() && t.Valid(g) && c.OpsNumbered() && Carries(g, t, p, bytes) && |bytes| == size > 0
    modifies g, c`sends, c`receives, c`log, c`ops, c`nextOp, t.endpoint`posts
    ensures g.Valid() && t.Valid(g) && c.OpsNumbered() && (op == null <==> err.Some?) && g.user == old(g.user)
    ensures err == AsPost(old(MessageError(g.live.Keys, t, p.region, size, Injects(t, size, ans), ans)))
    ensures err.Some? ==> Refused(c, t, old(c.sends), old(c.receives), old(c.ops), old(t.endpoint.posts))
                          && g.Ctxs() == old(g.Ctxs()) && g.live == old(g.live)
                          && c.log == old(c.log) + GivenBack(err.value, p.release)
    ensures op != null ==> fresh(op) && op.kind == C.Send && op.size == size && op.release == p.release
                           && (op.done <==> Injects(t, size, ans)) && c.receives == old(c.receives)
    ensures op != null && op.done ==>
              && t.endpoint.posts == old(t.endpoint.posts) + [Injected(bytes, dest)] && g.Ctxs() == old(g.Ctxs())
              && CompletedAtOnce(c, op, old(c.sends), old(c.log), fan) && c.ops == old(c.ops)
    ensures op != null && !op.done ==>
              && c.sends == old(c.sends).(posted := old(c.sends).posted + 1)
              && c.ops == old(c.ops)[op.id := op] && c.log == old(c.log)
              && q !in old(g.Ctxs()) && AttachedTo(g.Ctxs(), q, op.id) && g.Ctxs() - {q} == old(g.Ctxs())
              && t.endpoint.posts == old(t.endpoint.posts) + [Sent(bytes, dest, q)]
  {
    ghost var before := g.Ctxs();
    var ctx;
    op, ctx, err := BeginSend(c, g, t, p, dest, size, bytes, ans);
    if err.Some? {
      return null, err, NIL, [];
    }
    if ctx == null {
      fan := FinishInjected(c, g, t, op);
      return op, None, NIL, fan;
    }
    TrackSend(c, g, t, op, ctx, before);
    return op, None, ctx.ptr, [];
  }

  /** An injected send: counted as posted and as completed, its handlers told and its region given back. */
  ghost predicate CompletedAtOnce(c: C.Client, op: C.Operation, sends: C.Stats, log: seq<C.Happening>,
                                  fan: seq<C.Happening>)
    reads c, op
  {
    && op.result == C.Result(op.size, None)
    && c.sends == sends.(posted := sends.posted + 1, completed := sends.completed + 1)
    && C.IsSendFan(fan, c.sendHandlers, c.sendHandlers.Keys, op.result)
    && c.log == log + [C.Counted(C.Send, false)] + fan + C.Afterwards(op.id, op.release, [], op.result)
  }

  /** sendAsync completes the operation of an injected message itself. */
  method CompleteInjected(c: C.Client, g: Process, t: Transport, op: C.Operation) returns (ghost fan: seq<C.Happening>)
    requires g.Valid() && t.Valid(g) && op.Valid() && !op.once && op.callbacks == [] && op.kind == C.Send
    modifies c`sends, c`receives, c`log, op
    ensures g.Valid() && t.Valid(g) && g.Ctxs() == old(g.Ctxs()) && op.release == old(op.release)
    ensures C.IsSendFan(fan, c.sendHandlers, c.sendHandlers.Keys, op.result)
    ensures c.log == old(c.log) + [C.Counted(C.Send, false)] + fan + C.Afterwards(op.id, op.release, [], op.result)
    ensures op.done && op.result == C.Result(op.size, None)
    ensures c.sends == old(c.sends).(completed := old(c.sends).completed + 1) && c.receives == old(c.receives)
  {
    fan := op.Complete(c, g, C.Result(op.size, None));
  }

  /** The operation becomes the value of the context. */
  method Attach(c: C.Client, g: Process, t: Transport, op: C.Operation, ctx: CompletionContext)
    requires g.Valid() && t.Valid(g) && g.Knows(ctx) && !ctx.closed && c.OpsNumbered() && op.id < c.nextOp
    modifies c`ops, ctx`value
    ensures g.Valid() && t.Valid(g) && c.OpsNumbered() && c.ops == old(c.ops)[op.id := op]
    ensures ctx.ptr in old(g.Ctxs())
    ensures ctx.ptr in g.Ctxs() && g.Ctxs()[ctx.ptr] == old(g.Ctxs())[ctx.ptr].(value := Some(op.id))
    ensures g.Ctxs() - {ctx.ptr} == old(g.Ctxs()) - {ctx.ptr}
  {
    ghost var w := g.Abs();
    ctx.SetValue(g, op.id);
    assert g.Abs().ctxs == w.ctxs[ctx.ptr := w.ctxs[ctx.ptr].(value := Some(op.id))];
    c.ops := c.ops[op.id := op];
  }

  /** An injected send is counted and complete at once. */
  method FinishInjected(c: C.Client, g: Process, t: Transport, op: C.Operation) returns (ghost fan: seq<C.Happening>)
    requires g.Valid() && t.Valid(g) && c.OpsNumbered()
    requires op.Valid() && !op.once && op.callbacks == [] && op.kind == C.Send
    modifies c`sends, c`receives, c`log, op
    ensures g.Valid() && t.Valid(g) && c.OpsNumbered() && g.Ctxs() == old(g.Ctxs())
    ensures op.done && op.release == old(op.release) && CompletedAtOnce(c, op, old(c.sends), old(c.log), fan)
    ensures c.receives == old(c.receives)
  {
    c.sends := c.sends.(posted := c.sends.posted + 1);
    fan := CompleteInjected(c, g, t, op);
  }

  /** A posted send is counted, and its operation attached to the context. */
  method TrackSend(c: C.Client, g: Process, t: Transport, op: C.Operation, ctx: CompletionContext,
                   ghost others: map<Addr, Ctx>)
    requires g.Valid() && t.Valid(g) && g.Knows(ctx) && !ctx.closed && g.Ctxs() - {ctx.ptr} == others
    requires c.OpsNumbered() && op.id < c.nextOp
    modifies c`sends, c`ops, ctx`value
    ensures g.Valid() && t.Valid(g) && c.OpsNumbered() && c.ops == old(c.ops)[op.id := op]
    ensures c.sends == old(c.sends).(posted := old(c.sends).posted + 1)
    ensures AttachedTo(g.Ctxs(), ctx.ptr, op.id) && g.Ctxs() - {ctx.ptr} == others
  {
    c.sends := c.sends.(posted := c.sends.posted + 1);
    Attach(c, g, t, op, ctx);
  }

  predicate AttachedTo(ctxs: map<Addr, Ctx>, p: Addr, op: C.OpId) {
    p in ctxs && ctxs[p].value == Some(op)
  }

  /** A failed call: nothing counted, nothing sent, no operation kept. */
  ghost predicate Refused(c: C.Client, t: Transport, sends: C.Stats, receives: C.Stats,
                          ops: map<C.OpId, C.Operation>, posts: seq<Posting.Post>)
    reads c, t.endpoint
  {
    c.sends == sends && c.receives == receives && c.ops == ops && t.endpoint.posts == posts
  }

  /** What a failed call runs: the closure of the region it had taken, if there was one and the post is what failed. */
  function GivenBack(err: Error, taken: Option<C.Closure>): seq<C.Happening> {
    if err.Post? && taken.Some? then [C.RanRelease(taken.value)] else []
  }

  /** The release closure on an error path. */
  method GiveBack(c: C.Client, g: Process, t: Transport, release: Option<C.Closure>)
    requires g.Valid() && t.Valid(g)
    modifies c`log
    ensures g.Valid() && t.Valid(g) && g.Ctxs() == old(g.Ctxs())
    ensures c.log == old(c.log) + if release.Some? then [C.RanRelease(release.value)] else []
  {
    if release.Some? {
      c.log := c.log + [C.RanRelease(release.value)];
    }
  }

  // ---------------------------------------------------------------- receiving

  /**
   The region of a receive, if it goes through one, and the closure that gives it back; the caller's slice is the buffer
   in any case.
   */
  method PrepareReceive(g: Process, t: Transport, size: nat, env: Environment)
      returns (region: MemoryRegion?, release: Option<C.Closure>, err: Option<Error>)
    requires g.Valid() && t.Valid(g) && size > 0
    modifies g`live, if t.pool == null then {} else {t.pool}
    ensures g.Valid() && t.Valid(g) && g.Ctxs() == old(g.Ctxs())
    ensures err == AsRegion(old(RegionError(g.live.Keys, t, size, env)))
    ensures t.pool != null ==> t.pool.closed == old(t.pool.closed) && t.pool.chan == old(PoolThen(t, size))
    ensures err.Some? ==> region == null && g.live == old(g.live)
    ensures err == None ==> g.live.Keys == old(LiveThen(g.live.Keys, t, size, env))
    ensures region != null <==> release.Some?
    ensures region != null ==> release.value.region == region && region.Valid(g) && region.open && size <= region.length
                               && (t.pool != null ==> t.pool.Apart(region))
    ensures err == None ==> Chosen(t, size, release)
    ensures err == None && region != null ==> EnsureRegionAccess(region, FI_MR_LOCAL) == AccessError(t, size)
  {
    if t.pool != null && size <= t.pool.size {
      region, err := AcquireRegion(g, t, size, env);
      return region, if region == null then None else Some(C.ToPool(region)), err;
    }
    if t.requiresMR {
      region, err := RegisterRegion(g, t, seq(size, _ => 0), env);
      return region, if region == null then None else Some(C.CloseRegion(region)), err;
    }
    return null, None, None;
  }

  /**
   The context of a posted receive: it copies back into the caller's slice, from the staging buffer `staging` or, if
   that is nil, from nowhere.
   */
  predicate Expects(ctxs: map<Addr, Ctx>, q: Addr, op: C.OpId, buf: Slice, staging: Addr) {
    AttachedTo(ctxs, q, op) && ctxs[q].copyBack == Some(buf) && ctxs[q].buffer == staging
  }

  method PostBuffer(g: Process, t: Transport, buf: Slice, region: MemoryRegion?, ans: Answers)
      returns (ctx: CompletionContext?, err: Option<Regions.Error>, ghost a: Addr, ghost stale: seq<Byte>)
    requires g.Valid() && t.Valid(g) && InBounds(g.user, buf) && buf.len > 0
    requires region != null ==> region.Valid(g)
    modifies g, t.endpoint`posts
    ensures g.Valid() && t.Valid(g) && (ctx == null <==> err.Some?)
    ensures ctx == null ==>
              && t.endpoint.posts == old(t.endpoint.posts) && g.Ctxs() == old(g.Ctxs())
              && g.live == old(g.live)
              && LeftBy(old(g.user), g.user, buf, region == null, err.value, stale)
    ensures err == old(MessageError(g.live.Keys, t, region, buf.len, false, ans))
    ensures ctx != null ==>
              && fresh(ctx) && !ctx.closed && g.Knows(ctx) && g.user == old(g.user)
              && ctx.ptr !in old(g.Ctxs()) && ctx.ptr in g.Ctxs() && g.Ctxs() - {ctx.ptr} == old(g.Ctxs())
              && g.Ctxs()[ctx.ptr].copyBack == Some(buf)
              && g.Ctxs()[ctx.ptr].buffer == (if region == null then a else NIL)
              && (region == null ==> a != NIL) && (region != null ==> a == region.buffer)
              && t.endpoint.posts == old(t.endpoint.posts) + [Receiving(a, buf.len, UNSPECIFIED, ctx.ptr)]
  {
    ctx, err, stale := t.endpoint.PostRecv(g, RecvRequest(buf, 0, null, region), ans);
    NilIsDead(g.Abs());
    a := if ctx == null then NIL else Memory(ctx, region);
  }

  /**
   ReceiveAsync.  Success: one receive of the size of the caller's buffer is posted, into the staging buffer or into
   the region, with the caller's buffer to be copied back, which a region makes impossible; it is counted, and its
   operation is attached to the context.  Failure: as for sendAsync, except that a receive without a region that the
   provider refuses leaves the stale bytes of its staging buffer in the caller's slice.
   */
  method ReceiveAsync(c: C.Client, g: Process, t: Transport, buf: Slice, env: Environment)
      returns (op: C.Operation?, err: Option<Error>, ghost q: Addr, ghost a: Addr, ghost taken: Option<C.Closure>,
               ghost stale: seq<Byte>)
    requires g.Valid() && t.Valid(g) && c.OpsNumbered() && InBounds(g.user, buf)
    modifies g, c`receives, c`log, c`ops, c`nextOp, t.endpoint`posts, if t.pool == null then {} else {t.pool}
    ensures g.Valid() && t.Valid(g) && c.OpsNumbered() && (op == null <==> err.Some?)
    ensures err == if c.closed then Some(Closed)
                   else if buf.len == 0 then Some(Empty)
                   else if c.dispatcherErr.Some? then Some(DispatcherFailed)
                   else old(RequestFailure(g.live.Keys, t, buf.len, false, env))
    ensures err.Some? ==> Refused(c, t, old(c.sends), old(c.receives), old(c.ops), old(t.endpoint.posts))
                          && g.Ctxs() == old(g.Ctxs()) && c.log == old(c.log) + GivenBack(err.value, taken)
    ensures err.Some? ==>
              if err.value.Post? then LeftBy(old(g.user), g.user, buf, taken == None, err.value.error, stale)
              else g.user == old(g.user)
    ensures t.pool != null ==>
              && t.pool.closed == old(t.pool.closed)
              && t.pool.chan == if err.Some? && !err.value.Post? then old(t.pool.chan) else old(PoolThen(t, buf.len))
    ensures err == None || err.value.Post? ==> Chosen(t, buf.len, taken)
    ensures err.Some? ==> g.live.Keys == if err.value.Post? then old(LiveThen(g.live.Keys, t, buf.len, env))
                                         else old(g.live.Keys)
    ensures LocalOnly(t) ==> err != Some(Post(InsufficientAccess))
    ensures op != null ==>
              && fresh(op) && op.kind == C.Receive && op.size == buf.len && op.buffer == Some(buf) && !op.done
              && op.release == taken && c.receives == old(c.receives).(posted := old(c.receives).posted + 1)
              && c.ops == old(c.ops)[op.id := op] && c.log == old(c.log) && g.user == old(g.user)
              && q !in old(g.Ctxs()) && g.Ctxs() - {q} == old(g.Ctxs())
              && t.endpoint.posts == old(t.endpoint.posts) + [Receiving(a, buf.len, UNSPECIFIED, q)]
              && Expects(g.Ctxs(), q, op.id, buf, if op.release == None then a else NIL)
              && (op.release == None ==> a != NIL) && (op.release.Some? ==> a == op.release.value.region.buffer)
  {
    err := Refusal(c, buf.len);
    if err.Some? {
      return null, err, NIL, NIL, None, [];
    }
    op, err, q, a, taken, stale := ReceiveRequested(c, g, t, buf, env);
  }

  /** ReceiveAsync from prepareReceive on. */
  method ReceiveRequested(c: C.Client, g: Process, t: Transport, buf: Slice, env: Environment)
      returns (op: C.Operation?, err: Option<Error>, ghost q: Addr, ghost a: Addr, ghost taken: Option<C.Closure>,
               ghost stale: seq<Byte>)
    requires g.Valid() && t.Valid(g) && c.OpsNumbered() && InBounds(g.user, buf) && buf.len > 0
    modifies g, c`receives, c`log, c`ops, c`nextOp, t.endpoint`posts, if t.pool == null then {} else {t.pool}
    ensures g.Valid() && t.Valid(g) && c.OpsNumbered() && (op == null <==> err.Some?)
    ensures err == old(RequestFailure(g.live.Keys, t, buf.len, false, env))
    ensures err.Some? ==> Refused(c, t, old(c.sends), old(c.receives), old(c.ops), old(t.endpoint.posts))
                          && g.Ctxs() == old(g.Ctxs()) && c.log == old(c.log) + GivenBack(err.value, taken)
    ensures err.Some? ==>
              if err.value.Post? then LeftBy(old(g.user), g.user, buf, taken == None, err.value.error, stale)
              else g.user == old(g.user)
    ensures t.pool != null ==>
              && t.pool.closed == old(t.pool.closed)
              && t.pool.chan == if err.Some? && !err.value.Post? then old(t.pool.chan) else old(PoolThen(t, buf.len))
    ensures err == None || err.value.Post? ==> Chosen(t, buf.len, taken)
    ensures err.Some? ==> g.live.Keys == if err.value.Post? then old(LiveThen(g.live.Keys, t, buf.len, env))
                                         else old(g.live.Keys)
    ensures LocalOnly(t) ==> err != Some(Post(InsufficientAccess))
    ensures op != null ==>
              && fresh(op) && op.kind == C.Receive && op.size == buf.len && op.buffer == Some(buf) && !op.done
              && op.release == taken && c.receives == old(c.receives).(posted := old(c.receives).posted + 1)
              && c.ops == old(c.ops)[op.id := op] && c.log == old(c.log) && g.user == old(g.user)
              && q !in old(g.Ctxs()) && g.Ctxs() - {q} == old(g.Ctxs())
              && t.endpoint.posts == old(t.endpoint.posts) + [Receiving(a, buf.len, UNSPECIFIED, q)]
              && Expects(g.Ctxs(), q, op.id, buf, if op.release == None then a else NIL)
              && (op.release == None ==> a != NIL) && (op.release.Some? ==> a == op.release.value.region.buffer)
  {
    var region, release;
    region, release, err := PrepareReceive(g, t, buf.len, env);
    if err.Some? {
      return null, err, NIL, NIL, None, [];
    }
    RegionAtHand(g.live.Keys, t, region, buf.len, false, env.post);
    LocalOnlyIsLocal(t, buf.len);
    op, err, q, a, stale := ReceivePrepared(c, g, t, buf, region, release, env.post);
    taken := release;
  }

  /** PostRecv, and the release closure if it failed. */
  method PostOrGiveBack(c: C.Client, g: Process, t: Transport, buf: Slice, region: MemoryRegion?,
                        release: Option<C.Closure>, ans: Answers)
      returns (ctx: CompletionContext?, err: Option<Error>, ghost a: Addr, ghost stale: seq<Byte>)
    requires g.Valid() && t.Valid(g) && InBounds(g.user, buf) && buf.len > 0
    requires region != null ==> region.Valid(g)
    modifies g, c`log, t.endpoint`posts
    ensures g.Valid() && t.Valid(g) && (ctx == null <==> err.Some?)
    ensures err.Some? ==>
              && err.value.Post? && t.endpoint.posts == old(t.endpoint.posts) && g.Ctxs() == old(g.Ctxs())
              && c.log == old(c.log) + GivenBack(err.value, release) && g.live == old(g.live)
              && LeftBy(old(g.user), g.user, buf, region == null, err.value.error, stale)
    ensures err == AsPost(old(MessageError(g.live.Keys, t, region, buf.len, false, ans)))
    ensures ctx != null ==>
              && fresh(ctx) && !ctx.closed && g.Knows(ctx) && g.user == old(g.user) && c.log == old(c.log)
              && ctx.ptr !in old(g.Ctxs()) && ctx.ptr in g.Ctxs() && g.Ctxs() - {ctx.ptr} == old(g.Ctxs())
              && g.Ctxs()[ctx.ptr].copyBack == Some(buf)
              && g.Ctxs()[ctx.ptr].buffer == (if region == null then a else NIL)
              && (region == null ==> a != NIL) && (region != null ==> a == region.buffer)
              && t.endpoint.posts == old(t.endpoint.posts) + [Receiving(a, buf.len, UNSPECIFIED, ctx.ptr)]
  {
    var postErr;
    ctx, postErr, a, stale := PostBuffer(g, t, buf, region, ans);
    err := None;
    if postErr.Some? {
      err := Some(Post(postErr.value));
      GiveBack(c, g, t, release);
    }
  }

  /** The operation, and the post: a failing exit leaves nothing of either. */
  method BeginReceive(c: C.Client, g: Process, t: Transport, buf: Slice, region: MemoryRegion?,
                      release: Option<C.Closure>, ans: Answers)
      returns (op: C.Operation, ctx: CompletionContext?, err: Option<Error>, ghost a: Addr, ghost stale: seq<Byte>)
    requires g.Valid() && t.Valid(g) && c.OpsNumbered() && InBounds(g.user, buf) && buf.len > 0
    requires region != null ==> region.Valid(g)
    modifies g, c`nextOp, c`log, t.endpoint`posts
    ensures g.Valid() && t.Valid(g) && c.OpsNumbered() && (ctx == null <==> err.Some?)
    ensures fresh(op) && op.id < c.nextOp && !op.done
    ensures op.kind == C.Receive && op.size == buf.len && op.buffer == Some(buf) && op.release == release
    ensures err == AsPost(old(MessageError(g.live.Keys, t, region, buf.len, false, ans)))
    ensures err.Some? ==>
              && t.endpoint.posts == old(t.endpoint.posts) && g.Ctxs() == old(g.Ctxs()) && g.live == old(g.live)
              && c.log == old(c.log) + GivenBack(err.value, release)
              && err.value.Post? && LeftBy(old(g.user), g.user, buf, region == null, err.value.error, stale)
    ensures ctx != null ==>
              && fresh(ctx) && !ctx.closed && g.Knows(ctx) && g.user == old(g.user) && c.log == old(c.log)
              && ctx.ptr !in old(g.Ctxs()) && ctx.ptr in g.Ctxs() && g.Ctxs() - {ctx.ptr} == old(g.Ctxs())
              && g.Ctxs()[ctx.ptr].copyBack == Some(buf)
              && g.Ctxs()[ctx.ptr].buffer == (if region == null then a else NIL)
              && (region == null ==> a != NIL) && (region != null ==> a == region.buffer)
              && t.endpoint.posts == old(t.endpoint.posts) + [Receiving(a, buf.len, UNSPECIFIED, ctx.ptr)]
  {
    ghost var before := g.Ctxs();
    op := c.NewOperation(C.Receive, buf.len, Some(buf), release);
    assert g.Ctxs() == before;
    ctx, err, a, stale := PostOrGiveBack(c, g, t, buf, region, release, ans);
  }

  method ReceivePrepared(c: C.Client, g: Process, t: Transport, buf: Slice, region: MemoryRegion?,
                         release: Option<C.Closure>, ans: Answers)
      returns (op: C.Operation?, err: Option<Error>, ghost q: Addr, ghost a: Addr, ghost stale: seq<Byte>)
    requires g.Valid() && t.Valid(g) && c.OpsNumbered() && InBounds(g.user, buf) && buf.len > 0
    requires (region != null <==> release.Some?)
             && (region != null ==> release.value.region == region && region.Valid(g))
    modifies g, c`receives, c`log, c`ops, c`nextOp, t.endpoint`posts
    ensures g.Valid() && t.Valid(g) && c.OpsNumbered() && (op == null <==> err.Some?)
    ensures err.Some? ==> Refused(c, t, old(c.sends), old(c.receives), old(c.ops), old(t.endpoint.posts))
                          && g.Ctxs() == old(g.Ctxs()) && g.live == old(g.live)
                          && c.log == old(c.log) + GivenBack(err.value, release)
                          && err.value.Post? && LeftBy(old(g.user), g.user, buf, region == null, err.value.error, stale)
    ensures err == AsPost(old(MessageError(g.live.Keys, t, region, buf.len, false, ans)))
    ensures op != null ==>
              && fresh(op) && op.kind == C.Receive && op.size == buf.len && op.buffer == Some(buf) && !op.done
              && op.release == release
              && c.receives == old(c.receives).(posted := old(c.receives).posted + 1)
              && c.ops == old(c.ops)[op.id := op] && c.log == old(c.log) && g.user == old(g.user)
              && q !in old(g.Ctxs()) && g.Ctxs() - {q} == old(g.Ctxs())
              && t.endpoint.posts == old(t.endpoint.posts) + [Receiving(a, buf.len, UNSPECIFIED, q)]
              && Expects(g.Ctxs(), q, op.id, buf, if region == null then a else NIL)
              && (region == null ==> a != NIL) && (region != null ==> a == region.buffer)
  {
    ghost var before := g.Ctxs();
    var ctx;
    op, ctx, err, a, stale := BeginReceive(c, g, t, buf, region, release, ans);
    if ctx == null {
      return null, err, NIL, NIL, stale;
    }
    TrackReceive(c, g, t, op, ctx, buf, if region == null then a else NIL, before);
    return op, None, ctx.ptr, a, stale;
  }

  /** An accepted receive is counted and its operation attached. */
  method TrackReceive(c: C.Client, g: Process, t: Transport, op: C.Operation, ctx: CompletionContext, ghost buf: Slice,
                      ghost staging: Addr, ghost others: map<Addr, Ctx>)
    requires g.Valid() && t.Valid(g) && g.Knows(ctx) && !ctx.closed && c.OpsNumbered() && op.id < c.nextOp
    requires ctx.ptr in g.Ctxs() && g.Ctxs()[ctx.ptr].copyBack == Some(buf) && g.Ctxs()[ctx.ptr].buffer == staging
    requires g.Ctxs() - {ctx.ptr} == others
    modifies c`ops, c`receives, ctx`value
    ensures g.Valid() && t.Valid(g) && c.OpsNumbered() && c.ops == old(c.ops)[op.id := op]
    ensures c.receives == old(c.receives).(posted := old(c.receives).posted + 1)
    ensures Expects(g.Ctxs(), ctx.ptr, op.id, buf, staging) && g.Ctxs() - {ctx.ptr} == others
  {
    c.receives := c.receives.(posted := c.receives.posted + 1);
    Attach(c, g, t, op, ctx);
  }
}
