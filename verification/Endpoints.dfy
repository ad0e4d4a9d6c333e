/** The posting methods of an endpoint. */
module Endpoints {
  import opened Basics
  import opened Runtime
  import opened Regions
  import opened Posting

  class Endpoint {
    var open: bool
    const injectLimit: nat
    const supportsTagged: bool
    var posts: seq<Post>

    constructor (injectLimit: nat, supportsTagged: bool)
      ensures open && this.injectLimit == injectLimit && this.supportsTagged == supportsTagged && posts == []
    {
      open, this.injectLimit, this.supportsTagged, posts := true, injectLimit, supportsTagged, [];
    }

    /** A provider call: with status 0 the post is accepted, otherwise nothing happens. */
    method Call(post: Post, status: int) returns (err: Option<Error>)
      modifies this`posts
      ensures err == if status == 0 then None else Some(Provider(status))
      ensures posts == if status == 0 then old(posts) + [post] else old(posts)
    {
      if status != 0 {
        return Some(Provider(status));
      }
      posts := posts + [post];
      return None;
    }

    /** The fast path of PostSend: a context of the endpoint's own, and a message within the inject limit. */
    predicate Injectable(req: SendRequest) {
      req.context == null && 0 < Len(req.buffer) <= injectLimit
    }

    method PostSend(g: Process, req: SendRequest, ans: Answers)
        returns (c: CompletionContext?, err: Option<Error>)
      requires g.Valid() && Sendable(g, req.context) && Readable(g.Abs(), req.buffer)
      requires req.region != null ==> req.region.Valid(g)
      modifies g, this`posts, if req.context == null then {} else {req.context}
      ensures g.Valid()
      // failure: the provider got nothing, and nothing is left of the call
      ensures err.Some? ==> c == null && posts == old(posts) && g.user == old(g.user)
                            && CleanFailure(g, old(g.Abs()), old(g.registry), req.context)
      // the error, exactly: the first check that fails
      ensures err == if !open then Some(InvalidHandle)
                     else old(Failing(ContextError(g.live.Keys, req.context, ans.token),
                             if Injectable(req) && !ans.refused then None
                             else Failing(RequestError(g.live.Keys, req.context, req.region, Len(req.buffer), ans),
                                          StatusError(ans.status))))
      ensures err.Some? && open && req.context != null ==> req.context.closed
      // which of the two it is lies with the provider
      ensures Injectable(req) && !ans.refused ==> c == null
      // inject: the provider has the message, and the context made for it is gone
      ensures err == None && c == null ==>
                && Injectable(req) && !ans.refused
                && posts == old(posts) + [Injected(old(BytesOf(g.Abs(), req.buffer)), req.dest)]
                && g.user == old(g.user) && CleanFailure(g, old(g.Abs()), old(g.registry), null)
      // post: the provider has the message, and its completion will carry this context
      ensures c != null ==>
                && err == None && Working(g, old(g.Abs()), old(g.registry), req.context, c)
                && (req.context == null ==> fresh(c))
                && posts == old(posts) + [Sent(old(Outgoing(g.Abs(), req.buffer, req.region)), req.dest, c.ptr)]
    {
      if !open {
        return null, Some(InvalidHandle);
      }
      ghost var w, registry := g.Abs(), g.registry;
      var bytes := Fetch(g, req.buffer);
      var ctx;
      ctx, err := Begin(g, req.context, req.region, Len(req.buffer), ans);
      if ctx == null {
        return null, err;
      }
      if Len(req.buffer) > 0 && req.context == null && injectLimit > 0 && Len(req.buffer) <= injectLimit {
        if !ans.refused {
          InjectNow(g, ctx, bytes, req.dest, w, registry);
          return null, None;
        }
      }
      c, err := Transmit(g, req.context, ctx, req.buffer, req.region, ToPeer(req.dest), ans.staging, ans.status, w,
                         registry);
    }

    /** The message is with the provider at once, and the context made for it is released. */
    method InjectNow(g: Process, ctx: CompletionContext, bytes: seq<Byte>, dest: Address, ghost w: World,
                     ghost registry: map<Addr, CompletionContext>)
      requires g.Valid() && Working(g, w, registry, null, ctx) && ctx.copyBack == None
      modifies g, this`posts, ctx
      ensures g.Valid() && posts == old(posts) + [Injected(bytes, dest)]
      ensures g.user == w.user && CleanFailure(g, w, registry, null)
    {
      posts := posts + [Injected(bytes, dest)];
      Withdraw(g, null, ctx, w, registry);
    }

    /** Staging or region, and the provider call. */
    method TryTransmit(g: Process, given: CompletionContext?, ctx: CompletionContext, buffer: View,
                       region: MemoryRegion?, target: Target, at: Addr, status: int, ghost w: World,
                       ghost registry: map<Addr, CompletionContext>)
        returns (err: Option<Error>)
      requires g.Valid() && Working(g, w, registry, given, ctx) && ctx.copyBack == None
      requires Readable(w, buffer) && (region != null ==> region.ValidIn(w.live))
      modifies g`live, ctx`buffer, ctx`bufCap, this`posts
      ensures g.Valid() && Working(g, w, registry, given, ctx)
      ensures posts == if err.Some? then old(posts)
                       else old(posts) + [Transmission(target, Outgoing(w, buffer, region), ctx.ptr)]
      ensures err == old(Failing(MemoryError(g.live.Keys, ctx, region, Len(buffer), at), StatusError(status)))
    {
      var bytes;
      bytes, err := BeginOut(g, given, ctx, buffer, region, at, w, registry);
      if err == None {
        err := Call(Transmission(target, bytes, ctx.ptr), status);
      }
    }

    /** The same, and the release if it failed. */
    method Transmit(g: Process, given: CompletionContext?, ctx: CompletionContext, buffer: View, region: MemoryRegion?,
                    target: Target, at: Addr, status: int, ghost w: World, ghost registry: map<Addr, CompletionContext>)
        returns (c: CompletionContext?, err: Option<Error>)
      requires g.Valid() && Working(g, w, registry, given, ctx) && ctx.copyBack == None
      requires Readable(w, buffer) && (region != null ==> region.ValidIn(w.live))
      modifies g, this`posts, ctx
      ensures g.Valid()
      ensures err.Some? ==> c == null && posts == old(posts) && g.user == w.user && CleanFailure(g, w, registry, given)
      ensures err.Some? ==> ctx.closed
      ensures err == None ==> c == ctx && Working(g, w, registry, given, c)
                              && posts == old(posts) + [Transmission(target, Outgoing(w, buffer, region), c.ptr)]
      ensures err == old(Failing(MemoryError(g.live.Keys, ctx, region, Len(buffer), at), StatusError(status)))
    {
      err := TryTransmit(g, given, ctx, buffer, region, target, at, status, w, registry);
      if err == None {
        return ctx, None;
      }
      Withdraw(g, given, ctx, w, registry);
      return null, err;
    }

    method PostTaggedSend(g: Process, req: TaggedSendRequest, ans: Answers)
        returns (c: CompletionContext?, err: Option<Error>)
      requires g.Valid() && Sendable(g, req.context) && Readable(g.Abs(), req.buffer)
      modifies g, this`posts, if req.context == null then {} else {req.context}
      ensures g.Valid() && (c == null <==> err.Some?)
      ensures err.Some? ==> posts == old(posts) && g.user == old(g.user)
                            && CleanFailure(g, old(g.Abs()), old(g.registry), req.context)
      // the error, exactly: the first check that fails
      ensures err == if !open then Some(InvalidHandle)
                     else if !supportsTagged then Some(CapabilityUnsupported)
                     else old(Failing(ContextError(g.live.Keys, req.context, ans.token),
                             Failing(RequestError(g.live.Keys, req.context, null, Len(req.buffer), ans),
                                     StatusError(ans.status))))
      ensures err.Some? && open && supportsTagged && req.context != null ==> req.context.closed
      ensures c != null ==>
                && Working(g, old(g.Abs()), old(g.registry), req.context, c) && (req.context == null ==> fresh(c))
                && posts == old(posts) + [TaggedSent(old(BytesOf(g.Abs(), req.buffer)), req.dest, req.tag, c.ptr)]
    {
      if !open {
        return null, Some(InvalidHandle);
      }
      if !supportsTagged {
        return null, Some(CapabilityUnsupported);
      }
      ghost var w, registry := g.Abs(), g.registry;
      var ctx;
      ctx, err := Begin(g, req.context, null, Len(req.buffer), ans);
      if ctx == null {
        return null, err;
      }
      c, err := Transmit(g, req.context, ctx, req.buffer, null, ToTag(req.dest, req.tag), ans.staging, ans.status, w,
                         registry);
    }

    method PostWrite(g: Process, req: WriteRequest, ans: Answers) returns (c: CompletionContext?, err: Option<Error>)
      requires g.Valid() && Sendable(g, req.context) && Readable(g.Abs(), req.buffer)
      requires req.region != null ==> req.region.Valid(g)
      modifies g, this`posts, if req.context == null then {} else {req.context}
      ensures g.Valid() && (c == null <==> err.Some?)
      ensures err.Some? ==> posts == old(posts) && g.user == old(g.user)
                            && CleanFailure(g, old(g.Abs()), old(g.registry), req.context)
      // the error, exactly: the first check that fails
      ensures err == if !open then Some(InvalidHandle)
                     else old(Failing(ContextError(g.live.Keys, req.context, ans.token),
                             if req.region == null && Len(req.buffer) == 0 then Some(EmptyBuffer)
                             else Failing(RequestError(g.live.Keys, req.context, req.region, Len(req.buffer), ans),
                                          StatusError(ans.status))))
      ensures err.Some? && open && req.context != null ==> req.context.closed
      ensures c != null ==>
                && Working(g, old(g.Abs()), old(g.registry), req.context, c) && (req.context == null ==> fresh(c))
                && posts == old(posts)
                     + [Writing(old(Outgoing(g.Abs(), req.buffer, req.region)), req.remote, req.key, req.offset, c.ptr)]
    {
      if !open {
        return null, Some(InvalidHandle);
      }
      ghost var w, registry := g.Abs(), g.registry;
      var ctx;
      ctx, err := Begin(g, req.context, req.region, Len(req.buffer), ans);
      if ctx == null {
        return null, err;
      }
      if req.region == null && Len(req.buffer) == 0 {
        Withdraw(g, req.context, ctx, w, registry);
        return null, Some(EmptyBuffer);
      }
      c, err := Transmit(g, req.context, ctx, req.buffer, req.region, ToRemote(req.remote, req.key, req.offset),
                         ans.staging, ans.status, w, registry);
    }

    /** Staging buffer or region, copy-back, and the provider call. */
    method Attempt(g: Process, given: CompletionContext?, ctx: CompletionContext, buffer: Slice, region: MemoryRegion?,
                   origin: Origin, at: Addr, status: int, ghost w: World, ghost registry: map<Addr, CompletionContext>)
        returns (err: Option<Error>, ghost stale: seq<Byte>)
      requires g.Valid() && Working(g, w, registry, given, ctx) && ctx.copyBack == None && ctx.buffer == NIL
      requires InBounds(w.user, buffer) && (region != null ==> region.ValidIn(w.live))
      modifies g`live, ctx`buffer, ctx`bufCap, ctx`copyBack, this`posts
      ensures g.Valid() && Working(g, w, registry, given, ctx)
      ensures err.Some? ==> posts == old(posts) && Holds(g, ctx, buffer, region == null, err.value, stale)
      ensures err == None ==> Awaits(g, ctx, buffer, region)
                              && posts == old(posts) + [Expectation(origin, Memory(ctx, region), Room(buffer, region),
                                                                    ctx.ptr)]
      ensures err == old(Failing(MemoryError(g.live.Keys, ctx, region, buffer.len, at), StatusError(status)))
    {
      var a, n;
      a, n, err := BeginIn(g, given, ctx, buffer, region, at, w, registry);
      stale := [];
      if err.Some? {
        return;
      }
      stale := if n > 0 then g.live[a].bytes[..n] else [];
      err := Call(Expectation(origin, a, n, ctx.ptr), status);
    }

    /** The same, and the release if it failed. */
    method Expect(g: Process, given: CompletionContext?, ctx: CompletionContext, buffer: Slice, region: MemoryRegion?,
                  origin: Origin, at: Addr, status: int, ghost w: World, ghost registry: map<Addr, CompletionContext>)
        returns (c: CompletionContext?, err: Option<Error>, ghost stale: seq<Byte>)
      requires g.Valid() && Working(g, w, registry, given, ctx) && ctx.copyBack == None && ctx.buffer == NIL
      requires InBounds(w.user, buffer) && (region != null ==> region.ValidIn(w.live))
      modifies g, this`posts, ctx
      ensures g.Valid()
      ensures err.Some? ==> c == null && posts == old(posts) && CleanFailure(g, w, registry, given)
                            && LeftBy(w.user, g.user, buffer, region == null, err.value, stale)
      ensures err.Some? ==> ctx.closed
      ensures err == None ==> c == ctx && Working(g, w, registry, given, c) && Awaits(g, c, buffer, region)
                              && posts == old(posts) + [Expectation(origin, Memory(c, region), Room(buffer, region),
                                                                    c.ptr)]
      ensures err == old(Failing(MemoryError(g.live.Keys, ctx, region, buffer.len, at), StatusError(status)))
    {
      err, stale := Attempt(g, given, ctx, buffer, region, origin, at, status, w, registry);
      if err == None {
        return ctx, None, [];
      }
      WithdrawExpected(g, given, ctx, buffer, region == null, err.value, stale, w, registry);
      return null, err, stale;
    }

    method PostRecv(g: Process, req: RecvRequest, ans: Answers)
        returns (c: CompletionContext?, err: Option<Error>, ghost stale: seq<Byte>)
      requires g.Valid() && Usable(g, req.context) && InBounds(g.user, req.buffer)
      requires req.region != null ==> req.region.Valid(g)
      modifies g, this`posts, if req.context == null then {} else {req.context}
      ensures g.Valid() && (c == null <==> err.Some?)
      ensures err.Some? ==>
                && posts == old(posts)
                && LeftBy(old(g.user), g.user, req.buffer, req.region == null, err.value, stale)
                && CleanFailure(g, old(g.Abs()), old(g.registry), req.context)
      // the error, exactly: the first check that fails
      ensures err == if !open then Some(InvalidHandle)
                     else old(Failing(ContextError(g.live.Keys, req.context, ans.token),
                             Failing(RequestError(g.live.Keys, req.context, req.region, req.buffer.len, ans),
                                     StatusError(ans.status))))
      ensures err.Some? && open && req.context != null ==> req.context.closed
      ensures c != null ==>
                && Working(g, old(g.Abs()), old(g.registry), req.context, c) && (req.context == null ==> fresh(c))
                && Awaits(g, c, req.buffer, req.region)
                && posts == old(posts) + [Receiving(Memory(c, req.region), Room(req.buffer, req.region),
                                                    if req.source == 0 then UNSPECIFIED else req.source, c.ptr)]
    {
      if !open {
        return null, Some(InvalidHandle), [];
      }
      ghost var w, registry := g.Abs(), g.registry;
      var ctx;
      ctx, err := Begin(g, req.context, req.region, req.buffer.len, ans);
      if ctx == null {
        return null, err, [];
      }
      c, err, stale := Expect(g, req.context, ctx, req.buffer, req.region,
                              FromPeer(if req.source == 0 then UNSPECIFIED else req.source),
                              ans.staging, ans.status, w, registry);
    }

    method PostTaggedRecv(g: Process, req: TaggedRecvRequest, ans: Answers)
        returns (c: CompletionContext?, err: Option<Error>, ghost stale: seq<Byte>)
      requires g.Valid() && Usable(g, req.context) && InBounds(g.user, req.buffer)
      modifies g, this`posts, if req.context == null then {} else {req.context}
      ensures g.Valid() && (c == null <==> err.Some?)
      ensures err.Some? ==> posts == old(posts) && LeftBy(old(g.user), g.user, req.buffer, true, err.value, stale)
                            && CleanFailure(g, old(g.Abs()), old(g.registry), req.context)
      // the error, exactly: the first check that fails
      ensures err == if !open then Some(InvalidHandle)
                     else if !supportsTagged then Some(CapabilityUnsupported)
                     else old(Failing(ContextError(g.live.Keys, req.context, ans.token),
                             Failing(RequestError(g.live.Keys, req.context, null, req.buffer.len, ans),
                                     StatusError(ans.status))))
      ensures err.Some? && open && supportsTagged && req.context != null ==> req.context.closed
      ensures c != null ==>
                && Working(g, old(g.Abs()), old(g.registry), req.context, c) && (req.context == null ==> fresh(c))
                && Awaits(g, c, req.buffer, null)
                && posts == old(posts) + [TaggedReceiving(Memory(c, null), req.buffer.len,
                                                          if req.source == 0 then UNSPECIFIED else req.source,
                                                          req.tag, req.ignore, c.ptr)]
    {
      if !open {
        return null, Some(InvalidHandle), [];
      }
      if !supportsTagged {
        return null, Some(CapabilityUnsupported), [];
      }
      ghost var w, registry := g.Abs(), g.registry;
      var ctx;
      ctx, err := Begin(g, req.context, null, req.buffer.len, ans);
      if ctx == null {
        return null, err, [];
      }
      c, err, stale := Expect(g, req.context, ctx, req.buffer, null,
                              FromTag(if req.source == 0 then UNSPECIFIED else req.source, req.tag, req.ignore),
                              ans.staging, ans.status, w, registry);
    }

    method PostRead(g: Process, req: ReadRequest, ans: Answers)
        returns (c: CompletionContext?, err: Option<Error>, ghost stale: seq<Byte>)
      requires g.Valid() && Usable(g, req.context) && InBounds(g.user, req.buffer)
      requires req.region != null ==> req.region.Valid(g)
      modifies g, this`posts, if req.context == null then {} else {req.context}
      ensures g.Valid() && (c == null <==> err.Some?)
      ensures err.Some? ==>
                && posts == old(posts)
                && LeftBy(old(g.user), g.user, req.buffer, req.region == null, err.value, stale)
                && CleanFailure(g, old(g.Abs()), old(g.registry), req.context)
      // the error, exactly: the first check that fails
      ensures err == if !open then Some(InvalidHandle)
                     else old(Failing(ContextError(g.live.Keys, req.context, ans.token),
                             if req.region == null && req.buffer.len == 0 then Some(EmptyBuffer)
                             else Failing(RequestError(g.live.Keys, req.context, req.region, req.buffer.len, ans),
                                          StatusError(ans.status))))
      ensures err.Some? && open && req.context != null ==> req.context.closed
      ensures c != null ==>
                && Working(g, old(g.Abs()), old(g.registry), req.context, c) && (req.context == null ==> fresh(c))
                && Awaits(g, c, req.buffer, req.region)
                && posts == old(posts) + [Reading(Memory(c, req.region), Room(req.buffer, req.region),
                                                  req.remote, req.key, req.offset, c.ptr)]
    {
      if !open {
        return null, Some(InvalidHandle), [];
      }
      ghost var w, registry := g.Abs(), g.registry;
      var ctx;
      ctx, err := Begin(g, req.context, req.region, req.buffer.len, ans);
      if ctx == null {
        return null, err, [];
      }
      if req.region == null && req.buffer.len == 0 {
        Withdraw(g, req.context, ctx, w, registry);
        return null, Some(EmptyBuffer), [];
      }
      c, err, stale := Expect(g, req.context, ctx, req.buffer, req.region, FromRemote(req.remote, req.key, req.offset),
                              ans.staging, ans.status, w, registry);
    }
  }

  /** Where the provider is to put the bytes of a receive or read. */
  function Memory(c: CompletionContext, region: MemoryRegion?): Addr
    reads c, region
  {
    if region != null then region.buffer else c.buffer
  }

  function Room(buffer: Slice, region: MemoryRegion?): nat
    reads region
  {
    if buffer.len == 0 && region != null then region.length else buffer.len
  }

  /**
   The context of an accepted receive or read: it will copy back into the caller's slice, from a staging buffer
   that is large enough.  With a region there is no staging buffer, so nothing will be copied.
   */
  ghost predicate Awaits(g: Process, c: CompletionContext, buffer: Slice, region: MemoryRegion?)
    reads g, c
  {
    && c.copyBack == (if buffer.len > 0 then Some(buffer) else None)
    && (region != null ==> c.buffer == NIL)
    && (region == null && buffer.len > 0 ==> c.buffer in g.live && buffer.len <= |g.live[c.buffer].bytes|)
  }
}
