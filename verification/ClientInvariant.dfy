/** The invariant of the client protocol, stated call by call. */
module ClientInvariant {
  import opened Basics
  import C = ContextProtocol
  import P = PoolProtocol
  import opened ClientProtocol

  // ---------------------------------------------------------------- what a step of the two parts leaves alone

  /** The context a step of the context protocol is about. */
  function CtxSubject(l: C.Label): Option<CallId> {
    if l.MapRegion? || l.UnmapRegion? then None else Some(l.c)
  }

  lemma CtxKeys(s: C.State, l: C.Label)
    requires C.Enabled(s, l)
    ensures C.Step(s, l).ctxs.Keys == s.ctxs.Keys + (if l.Mint? then {l.c} else {})
  {
    match l
    case Ensure(c, n, a) => assert C.FreeStaging(s, c).ctxs.Keys == s.ctxs.Keys;
    case Lookup(c) => assert C.DoLookup(s, c).ctxs.Keys == s.ctxs.Keys;
    case Unstage(c) => assert C.DoUnstage(s, c).ctxs.Keys == s.ctxs.Keys;
    case CopyBack(c) => assert C.DoCopyBack(s, c).ctxs.Keys == s.ctxs.Keys;
    case _ =>
  }

  /** A field update of `k` leaves every other context and its staging buffer alone. */
  lemma PutFrame(s: C.State, k: CallId, x: C.Ctx, j: CallId)
    requires j != k
    ensures CtxOf(C.Put(s, k, x), j) == CtxOf(s, j) && StagedOf(C.Put(s, k, x), j) == StagedOf(s, j)
  {
  }

  /** A heap or registry step about `k` leaves every other context and its staging buffer alone. */
  lemma HeapFrame(s: C.State, l: C.Label, j: CallId)
    requires C.Ledger(s) && C.Enabled(s, l) && CtxSubject(l).Some? && CtxSubject(l) != Some(j)
    requires l.Mint? || l.Ensure? || l.Write? || l.Unstage? || l.FreeToken?
    ensures CtxOf(C.Step(s, l), j) == CtxOf(s, j)
    ensures StagedOf(C.Step(s, l), j) == StagedOf(s, j)
  {
    C.NilIsNotLive(s);
    if j in s.ctxs { assert C.Owns(s, j); }
    if l.c in s.ctxs { assert C.Owns(s, l.c); }
    match l
    case Mint(c, a) => assert StagedOf(C.DoMint(s, c, a), j) == StagedOf(s, j);
    case Ensure(c, n, a) => EnsureFrame(s, c, n, a, j);
    case _ =>
  }

  /** A context step about `k` leaves every other context and its staging buffer alone. */
  lemma CtxFrame(s: C.State, l: C.Label, j: CallId)
    requires C.Inv(s) && C.Enabled(s, l) && CtxSubject(l).Some? && CtxSubject(l) != Some(j)
    requires l.Lookup? && s.ctxs[l.c].ptr in s.registry ==> s.registry[s.ctxs[l.c].ptr] == l.c
    ensures CtxOf(C.Step(s, l), j) == CtxOf(s, j)
    ensures StagedOf(C.Step(s, l), j) == StagedOf(s, j)
  {
    match l
    case Store(c) => PutFrame(s, c, s.ctxs[c].(stage := C.Open), j);
    case SetCopyBack(c, slice) => PutFrame(s, c, s.ctxs[c].(sink := Some(slice)), j);
    case Accept(c) => PutFrame(s, c, s.ctxs[c].(posted := true), j);
    case ReadEntry(c) => PutFrame(s, c, s.ctxs[c].(entry := C.Read), j);
    case Lookup(c) => assert CtxOf(C.DoLookup(s, c), j) == CtxOf(s, j);
    case SwapResolve(c) => PutFrame(s, c, C.SwapResolved(s.ctxs[c]), j);
    case SwapRelease(c) => PutFrame(s, c, C.SwapReleased(s.ctxs[c]), j);
    case Deregister(c) => PutFrame(s, c, s.ctxs[c].(stage := C.Detached), j);
    case RunCallbacks(c) => PutFrame(s, c, C.CallbacksRun(s.ctxs[c]), j);
    case CopyBack(c) => assert CtxOf(C.DoCopyBack(s, c), j) == CtxOf(s, j);
    case _ => HeapFrame(s, l, j);
  }

  lemma EnsureFrame(s: C.State, c: CallId, n: nat, a: Addr, j: CallId)
    requires C.Ledger(s) && C.Enabled(s, C.Ensure(c, n, a)) && j != c
    ensures CtxOf(C.DoEnsure(s, c, n, a), j) == CtxOf(s, j)
    ensures StagedOf(C.DoEnsure(s, c, n, a), j) == StagedOf(s, j)
  {
    C.NilIsNotLive(s);
    if j in s.ctxs { assert C.Owns(s, j); }
    assert C.Owns(s, c);
  }

  function PoolSubject(l: P.Label): Option<CallId> {
    if l == P.ClosePool || l == P.DrainTake || l.DrainClose? || l == P.DrainEnd then None else Some(l.a)
  }

  lemma PoolKeys(s: P.State, l: P.Label)
    requires P.Enabled(s, l)
    ensures P.Step(s, l).callers.Keys <= s.callers.Keys + (if PoolSubject(l).Some? then {PoolSubject(l).value} else {})
    ensures PoolSubject(l).Some? ==> P.Step(s, l).closed == s.closed && P.Step(s, l).drain == s.drain
    ensures P.Step(s, l).size == s.size
  {
  }

  /** A pool step leaves every caller it is not about, and the bytes in its hands, alone. */
  lemma PoolFrame(s: P.State, l: P.Label, j: CallId)
    requires P.Inv(s) && P.Enabled(s, l) && PoolSubject(l) != Some(j)
    ensures PointOf(P.Step(s, l), j) == PointOf(s, j)
    ensures HeldOf(P.Step(s, l), j) == HeldOf(s, j)
  {
    if j in s.callers { assert P.HandOk(s, j); }
    match l
    case Write(a, data) => assert P.HandOk(s, a);
    case CloseRegion(a, ok) => assert P.HandOk(s, a);
    case _ =>
  }

  // ---------------------------------------------------------------- what holds of one call

  /** A context that its call has created and nobody has used. */
  predicate Untouched(x: C.Ctx) {
    x.winner == C.Nobody && !x.posted && x.entry == C.Absent && !x.loaded
  }

  /** A context that its own call has released (or is releasing) without posting it. */
  predicate Withdrawn(x: C.Ctx) {
    x.winner == C.Releaser && !x.posted && x.entry == C.Absent && !x.loaded
  }

  predicate Live(v: View) {
    v.ctx.Some? && v.ctx.value.posted
  }

  /** The staging buffer and the registered slice are still to be used by the release of the context. */
  predicate CopyAhead(x: C.Ctx) {
    x.stage == C.Open || x.stage == C.Detached || x.stage == C.Called
  }

  ghost predicate CtxPart(v: View) {
    match v.call.pc
    case Entered => v.ctx == None
    case Admitting => v.ctx == None
    case Filling => v.ctx == None
    case Ready => v.ctx == None
    case Minting =>
      v.ctx.Some? && Untouched(v.ctx.value) && v.ctx.value.stage == C.Minted && v.ctx.value.buf == NIL
        && v.ctx.value.sink == None
    case Registered =>
      v.ctx.Some? && Untouched(v.ctx.value) && v.ctx.value.stage == C.Open && v.ctx.value.buf == NIL
        && v.ctx.value.sink == None
    case Injected => v.ctx.Some? && Untouched(v.ctx.value) && v.ctx.value.stage == C.Open
    case Buffered =>
      v.ctx.Some? && Untouched(v.ctx.value) && v.ctx.value.stage == C.Open && v.ctx.value.sink == None
    case Staged => v.ctx.Some? && Untouched(v.ctx.value) && v.ctx.value.stage == C.Open
    case Accepted => Live(v) && v.ctx.value.winner != C.Releaser
    case Counted => Live(v) && v.ctx.value.winner != C.Releaser
    case Returned => Live(v) && v.ctx.value.winner != C.Releaser
    case InjectUndoing => v.ctx.Some? && Withdrawn(v.ctx.value)
    case InjectPosted => v.ctx.Some? && Withdrawn(v.ctx.value) && v.ctx.value.stage == C.Freed
    case InjectCounted => v.ctx.Some? && Withdrawn(v.ctx.value) && v.ctx.value.stage == C.Freed
    case InjectReturned => v.ctx.Some? && Withdrawn(v.ctx.value) && v.ctx.value.stage == C.Freed
    case Failing => v.ctx.Some? ==> Untouched(v.ctx.value) && v.ctx.value.stage == C.Open
    case Undoing => v.ctx.Some? && Withdrawn(v.ctx.value)
    case GivingBack => v.ctx.Some? ==> Withdrawn(v.ctx.value) && v.ctx.value.stage == C.Freed
    case Failed => v.ctx.Some? ==> Withdrawn(v.ctx.value) && v.ctx.value.stage == C.Freed
  }

  /** The region of the request is in the hands of this call, and large enough. */
  predicate InHand(v: View) {
    match v.call.region
    case None => v.point == None
    case Some(r) => v.point == Some(P.Using(r)) && v.held.Some? && |v.call.payload| <= |v.held.value|
  }

  predicate Carries(bytes: seq<Byte>, payload: seq<Byte>) {
    |payload| <= |bytes| && bytes[..|payload|] == payload
  }

  /** The request is small enough for the pool. */
  predicate Fits(v: View) {
    v.limit.Some? && |v.call.payload| <= v.limit.value
  }

  /** A call has a region exactly if its request fits the pool or needs a registration of its own. */
  predicate ChoicePart(v: View) {
    match v.call.pc
    case Entered => true
    case Admitting => true
    case Failing => true
    case Undoing => true
    case GivingBack => true
    case Failed => true
    case _ => v.call.region.Some? <==> Fits(v) || v.strict
  }

  /** From the fill until the release of the region, a sender's region carries the payload. */
  predicate RegionPart(v: View) {
    var c := v.call;
    if c.pc == Entered then c.region == None && v.point == None
    else if c.pc == Admitting then
      c.region == None && v.point.Some? && P.Hand(v.point.value) == None && Fits(v)
    else if c.pc == GivingBack || c.op.Freeing? then
      v.point.Some? ==> c.region.Some? && P.Hand(v.point.value) == c.region && !v.point.value.Using?
    else if c.pc == Failed || c.op.Done? then v.point == None
    else
      && InHand(v)
      && (c.pc == Filling ==> c.region.Some?)
      && (c.pc != Filling && c.kind == Send && c.region.Some? ==> Carries(v.held.value, c.payload))
  }

  /** What the provider placed is at the front of `bytes`. */
  predicate Shows(bytes: seq<Byte>, got: Option<seq<Byte>>) {
    got.Some? ==> Carries(bytes, got.value)
  }

  /** Without a region: the staging buffer carries the message, and copy-back will show it to the receiver. */
  predicate StagingPart(v: View) {
    var c := v.call;
    v.ctx.Some? && c.region == None && (c.pc == Buffered || c.pc == Staged || Live(v)) ==>
      var x := v.ctx.value;
      && (CopyAhead(x) ==> v.staged.Some? && |c.payload| <= |v.staged.value|)
      && (c.pc != Buffered && c.kind == Send && CopyAhead(x) ==> Carries(v.staged.value, c.payload))
      && (c.pc != Buffered && c.kind == Receive ==> x.sink.Some? && |x.sink.value| == |c.payload|)
      && (c.kind == Receive && CopyAhead(x) ==> Shows(v.staged.value, c.got))
      && (c.pc != Buffered && c.kind == Receive && !CopyAhead(x) ==> Shows(x.sink.value, c.got))
  }

  /** With a region: no staging buffer, so copy-back never happens and the receiver's slice keeps its old bytes. */
  predicate NoStagingPart(v: View) {
    var c := v.call;
    v.ctx.Some? && c.region.Some? ==>
      && v.ctx.value.buf == NIL && v.staged == None
      && (c.kind == Receive && (c.pc == Staged || v.ctx.value.posted) ==> v.ctx.value.sink == Some(c.payload))
  }

  /** Whether the provider has, or had to have, done its work for a success entry. */
  predicate Served(v: View) {
    if v.call.kind == Send then v.sent.Some? else v.call.got.Some?
  }

  predicate Took(pc: Pc) {
    pc == Accepted || pc == Counted || pc == Returned
    || ByInject(pc)
  }

  predicate ByInject(pc: Pc) {
    pc == Injected || pc == InjectUndoing || pc == InjectPosted || pc == InjectCounted || pc == InjectReturned
  }

  predicate DataPart(v: View) {
    var c := v.call;
    && |c.payload| > 0 && c.size == |c.payload|
    && c.length == (if c.op == Pending then None else Some(c.size))
    && (c.pc == Buffered ==> c.region == None)
    && (v.sent.Some? ==> c.kind == Send && v.sent.value == c.payload && Took(c.pc))
    && (ByInject(c.pc) ==> v.sent.Some?)
    && (c.got.Some? ==> c.kind == Receive && Live(v) && |c.got.value| <= |c.payload|)
    && (c.from.Some? ==> c.got.Some?)
    && (c.kind == Receive ==> c.user == c.payload)
    && (c.pc != Returned && c.pc != InjectReturned && c.pc != Failed ==> c.user == c.payload)
  }

  predicate OpPart(v: View) {
    var c := v.call;
    if !Live(v) then
      && v.role == NoRole && !c.dropped
      && (c.op == Pending || c.pc == InjectCounted || c.pc == InjectReturned)
      && (c.pc == InjectCounted ==> c.op != Pending && !c.op.failed)
      && (c.pc == InjectReturned ==> c.op == Done(false))
    else
      var x := v.ctx.value;
      && (x.entry == C.Read <==> v.role.Reads?)
      && (x.loaded <==> v.role.Swaps?) && (x.loaded ==> x.winner == C.Nobody)
      && (x.entry.Spent? <==> x.loaded || x.winner == C.Resolver)
      && (v.role.Releases? || v.role.Stores? <==> x.winner == C.Resolver && c.op == Pending && !c.dropped)
      && (v.role.Stores? ==> c.pc == Returned && x.stage == C.Freed)
      && (v.role.Completes? <==> c.op.Stored? || c.op.Tallied? || c.op.Freeing?)
      && (c.op != Pending ==> c.pc == Returned && x.winner == C.Resolver && x.stage == C.Freed && !c.dropped)
      && (c.dropped ==> x.winner == C.Resolver && x.stage == C.Freed)
      && (v.role.Reads? || v.role.Swaps? || v.role.Releases? || v.role.Stores? ==> v.role.failed || Served(v))
      && (c.op != Pending ==> c.op.failed || Served(v))
      && (x.winner == C.Nobody ==> x.stage == C.Open)
      && (x.winner == C.Resolver ==> x.stage != C.Open && x.stage != C.Minted && x.stage != C.Claimed)
  }

  /**
   The result of a check that is used as a whole; it keeps the parts of an invariant out of the proofs that only pass it
   on.
   */
  datatype Health = Sound | Broken

  ghost function CallHealth(v: View): Health {
    if CtxPart(v) && ChoicePart(v) && RegionPart(v) && StagingPart(v) && NoStagingPart(v) && DataPart(v) && OpPart(v)
    then Sound else Broken
  }

  ghost predicate CallOk(v: View) {
    CallHealth(v) == Sound
  }

  /** A received message that came from a send of this client is the payload of that send. */
  ghost predicate FromOk(s: State, k: CallId)
    requires k in s.calls
  {
    s.calls[k].from.Some? ==>
      s.calls[k].from.value in s.calls
      && s.calls[s.calls[k].from.value].kind == Send
      && s.calls[k].got == Some(s.calls[s.calls[k].from.value].payload)
  }

  ghost predicate DispOk(s: State) {
    match s.disp
    case Polling => true
    case Exited => s.stops > 0
    case Completing(k) => k in s.calls
    case _ => s.disp.k in s.calls
  }

  ghost predicate CloserOk(s: State) {
    && (s.closed <==> s.closer != Idle)
    && s.stops == (if s.closer == Idle || s.closer == Swapped then 0 else 1)
    && s.teardowns == (if s.closer == Tearing || s.closer == Draining || s.closer == Over then 1 else 0)
    && (s.teardowns == 1 ==> s.disp == Exited)
    && (s.pl.closed <==> s.closer == Draining || s.closer == Over)
    && (s.handlesClosed <==> s.closer == Over)
    && (s.closer == Over ==> s.pl.drain == P.Over)
  }

  ghost predicate Parts(s: State) {
    && C.Inv(s.cx) && P.Inv(s.pl)
    && s.cx.ctxs.Keys <= s.calls.Keys && s.pl.callers.Keys <= s.calls.Keys && s.wire.Keys <= s.calls.Keys
    && (forall k {:trigger CallOk(ViewOf(s, k))} :: k in s.calls ==> CallOk(ViewOf(s, k)))
    && (forall k {:trigger FromOk(s, k)} :: k in s.calls ==> FromOk(s, k))
    && DispOk(s)
    && CloserOk(s)
  }

  ghost function StateHealth(s: State): Health {
    if Parts(s) then Sound else Broken
  }

  ghost predicate Inv(s: State) {
    StateHealth(s) == Sound
  }

  // ---------------------------------------------------------------- one call moves, the others stay

  predicate SameClosing(s: State, t: State) {
    && t.closed == s.closed && t.closer == s.closer && t.stops == s.stops && t.teardowns == s.teardowns
    && t.handlesClosed == s.handlesClosed && (t.disp == Exited <==> s.disp == Exited)
    && t.pl.closed == s.pl.closed && t.pl.drain == s.pl.drain
  }

  /**
   Only the record of `k` has changed, it keeps its identity, and the dispatcher is busy with no other call than before.
   */
  ghost predicate OnlyCall(s: State, t: State, k: CallId) {
    && k in t.calls && t.calls == s.calls[k := t.calls[k]]
    && (if k in s.calls then SameIdentity(s.calls[k], t.calls[k]) else t.calls[k].from == None)
    && (forall j {:trigger RoleOf(t.disp, j)} :: j != k ==> RoleOf(t.disp, j) == RoleOf(s.disp, j))
    && (forall j {:trigger SentOf(t.wire, j)} :: j != k ==> SentOf(t.wire, j) == SentOf(s.wire, j))
    && t.wire.Keys <= t.calls.Keys && t.hasPool == s.hasPool && t.requiresMR == s.requiresMR
    && DispOk(t) && SameClosing(s, t)
  }

  lemma MoveKeepsCalls(s: State, t: State, k: CallId)
    requires k in t.calls && t.calls == s.calls[k := t.calls[k]]
    requires forall j {:trigger CallOk(ViewOf(s, j))} :: j in s.calls ==> CallOk(ViewOf(s, j))
    requires forall j {:trigger ViewOf(t, j)} :: j in s.calls && j != k ==> ViewOf(t, j) == ViewOf(s, j)
    requires CallOk(ViewOf(t, k))
    ensures forall j {:trigger CallOk(ViewOf(t, j))} :: j in t.calls ==> CallOk(ViewOf(t, j))
  {
    forall j | j in t.calls ensures CallOk(ViewOf(t, j)) {
      if j != k { assert CallOk(ViewOf(s, j)) && ViewOf(t, j) == ViewOf(s, j); }
    }
  }

  predicate SameIdentity(c: Call, d: Call) {
    d.kind == c.kind && d.payload == c.payload && d.size == c.size && d.got == c.got && d.from == c.from
  }

  lemma MoveKeepsFrom(s: State, t: State, k: CallId)
    requires k in t.calls && t.calls == s.calls[k := t.calls[k]]
    requires forall j {:trigger FromOk(s, j)} :: j in s.calls ==> FromOk(s, j)
    requires if k in s.calls then SameIdentity(s.calls[k], t.calls[k]) else t.calls[k].from == None
    ensures forall j {:trigger FromOk(t, j)} :: j in t.calls ==> FromOk(t, j)
  {
    forall j | j in t.calls ensures FromOk(t, j) {
      if j in s.calls { assert FromOk(s, j); }
    }
  }

  lemma MoveKeeps(s: State, t: State, k: CallId)
    requires Inv(s) && C.Inv(t.cx) && P.Inv(t.pl)
    requires OnlyCall(s, t, k)
    requires forall j {:trigger ViewOf(t, j)} :: j in s.calls && j != k ==> ViewOf(t, j) == ViewOf(s, j)
    requires t.cx.ctxs.Keys <= t.calls.Keys && t.pl.callers.Keys <= t.calls.Keys
    requires CallOk(ViewOf(t, k))
    ensures Inv(t)
  {
    MoveKeepsCalls(s, t, k);
    MoveKeepsFrom(s, t, k);
  }

  /** A step in which neither sub-protocol moves. */
  lemma PlainMove(s: State, t: State, k: CallId)
    requires Inv(s) && t.cx == s.cx && t.pl == s.pl && OnlyCall(s, t, k)
    requires CallOk(ViewOf(t, k))
    ensures Inv(t)
  {
    MoveKeeps(s, t, k);
  }

  lemma CtxStepViews(s: State, t: State, k: CallId, l: C.Label)
    requires C.Inv(s.cx) && C.Enabled(s.cx, l) && CtxSubject(l) == Some(k) && t.cx == C.Step(s.cx, l) && t.pl == s.pl
    requires l.Lookup? && s.cx.ctxs[k].ptr in s.cx.registry ==> s.cx.registry[s.cx.ctxs[k].ptr] == k
    requires OnlyCall(s, t, k)
    ensures forall j {:trigger ViewOf(t, j)} :: j in s.calls && j != k ==> ViewOf(t, j) == ViewOf(s, j)
  {
    forall j | j in s.calls && j != k ensures ViewOf(t, j) == ViewOf(s, j) {
      CtxFrame(s.cx, l, j);
    }
  }

  lemma PoolStepViews(s: State, t: State, k: CallId, l: P.Label)
    requires P.Inv(s.pl) && P.Enabled(s.pl, l) && PoolSubject(l) == Some(k) && t.pl == P.Step(s.pl, l) && t.cx == s.cx
    requires OnlyCall(s, t, k)
    ensures forall j {:trigger ViewOf(t, j)} :: j in s.calls && j != k ==> ViewOf(t, j) == ViewOf(s, j)
  {
    PoolKeys(s.pl, l);
    forall j | j in s.calls && j != k ensures ViewOf(t, j) == ViewOf(s, j) {
      PoolFrame(s.pl, l, j);
    }
  }

  /** A step with a step of the context protocol about the same call. */
  lemma CtxMove(s: State, t: State, k: CallId, l: C.Label)
    requires Inv(s) && C.Enabled(s.cx, l) && CtxSubject(l) == Some(k) && t.cx == C.Step(s.cx, l) && t.pl == s.pl
    requires l.Lookup? && s.cx.ctxs[k].ptr in s.cx.registry ==> s.cx.registry[s.cx.ctxs[k].ptr] == k
    requires OnlyCall(s, t, k)
    requires CallOk(ViewOf(t, k))
    ensures Inv(t)
  {
    C.StepKeepsInv(s.cx, l);
    CtxStepViews(s, t, k, l);
    CtxKeys(s.cx, l);
    MoveKeeps(s, t, k);
  }

  /** A step with a step of the pool protocol about the same call. */
  lemma PoolMove(s: State, t: State, k: CallId, l: P.Label)
    requires Inv(s) && P.Enabled(s.pl, l) && PoolSubject(l) == Some(k) && t.pl == P.Step(s.pl, l) && t.cx == s.cx
    requires OnlyCall(s, t, k)
    requires CallOk(ViewOf(t, k))
    ensures Inv(t)
  {
    P.StepKeepsInv(s.pl, l);
    PoolStepViews(s, t, k, l);
    PoolKeys(s.pl, l);
    MoveKeeps(s, t, k);
  }
}
