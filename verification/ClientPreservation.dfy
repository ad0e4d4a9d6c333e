/** Every step of the client protocol keeps its invariant. */
module ClientPreservation {
  import opened Basics
  import C = ContextProtocol
  import P = PoolProtocol
  import opened ClientProtocol
  import opened ClientInvariant

  // ---------------------------------------------------------------- steps of the calling goroutine

  lemma BeginKeeps(s: State, k: CallId, kind: Kind, payload: seq<Byte>)
    requires Inv(s) && k !in s.calls && |payload| > 0
    ensures Inv(Set(s, k, NewCall(kind, payload)))
  {
    var t := Set(s, k, NewCall(kind, payload));
    assert k !in s.cx.ctxs.Keys && k !in s.pl.callers.Keys && k !in s.wire.Keys;
    assert ViewOf(t, k) == View(NewCall(kind, payload), None, None, None, None, None, NoRole, ViewOf(t, k).limit,
                                s.requiresMR);
    PlainMove(s, t, k);
  }

  /** The program counter moves between two points at which the same things hold. */
  predicate Advances(v: View, pc: Pc) {
    match v.call.pc
    case Entered => (pc == Ready && !Fits(v) && !v.strict) || pc == Failing
    case Ready => pc == Failing
    case Registered => pc == Failing || (pc == Staged && v.call.region.Some? && v.call.kind == Send)
    case Staged => pc == Failing
    case Filling => pc == Ready && v.call.kind == Receive
    case Accepted => pc == Counted
    case Counted => pc == Returned
    case GivingBack => pc == Failed && v.point == None
    case Failing => pc == GivingBack && v.call.region == None && v.ctx == None
    case Undoing => pc == GivingBack && v.call.region == None && v.ctx.Some? && v.ctx.value.stage == C.Freed
    case InjectUndoing => pc == InjectPosted && v.ctx.Some? && v.ctx.value.stage == C.Freed
    case InjectCounted => pc == InjectReturned && v.call.op.Done?
    case _ => false
  }

  /** The moves before the provider has taken the post. */
  predicate Early(pc: Pc) {
    pc == Entered || pc == Ready || pc == Registered || pc == Staged || pc == Filling
  }

  lemma EarlyView(v: View, pc: Pc)
    requires CallOk(v) && Advances(v, pc) && Early(v.call.pc)
    ensures CallOk(v.(call := v.call.(pc := pc)))
  {
  }

  lemma TakenView(v: View, pc: Pc)
    requires CallOk(v) && Advances(v, pc) && (v.call.pc == Accepted || v.call.pc == Counted || ByInject(v.call.pc))
    ensures CallOk(v.(call := v.call.(pc := pc)))
  {
  }

  lemma GivenBackView(v: View)
    requires CallOk(v) && v.call.pc == GivingBack && v.point == None
    ensures CallOk(v.(call := v.call.(pc := Failed)))
  {
  }

  lemma LeavingView(v: View, pc: Pc)
    requires CallOk(v) && Advances(v, pc) && (v.call.pc == Failing || v.call.pc == Undoing)
    ensures CallOk(v.(call := v.call.(pc := pc)))
  {
  }

  lemma AdvanceView(v: View, pc: Pc)
    requires CallOk(v) && Advances(v, pc)
    ensures CallOk(v.(call := v.call.(pc := pc)))
  {
    match v.call.pc
    case Accepted => TakenView(v, pc);
    case Counted => TakenView(v, pc);
    case InjectUndoing => TakenView(v, pc);
    case InjectCounted => TakenView(v, pc);
    case GivingBack => GivenBackView(v);
    case Failing => LeavingView(v, pc);
    case Undoing => LeavingView(v, pc);
    case _ => EarlyView(v, pc);
  }

  lemma AdvanceKeeps(s: State, k: CallId, pc: Pc)
    requires Inv(s) && k in s.calls && Advances(ViewOf(s, k), pc)
    ensures Inv(Go(s, k, pc))
  {
    var v := ViewOf(s, k);
    assert CallOk(v);
    AdvanceView(v, pc);
    assert ViewOf(Go(s, k, pc), k) == v.(call := v.call.(pc := pc));
    PlainMove(s, Go(s, k, pc), k);
  }

  /** Counters and the recorded error are not part of the invariant. */
  lemma CountersDoNotMatter(s: State, t: State)
    requires Inv(s) && t == s.(sends := t.sends, receives := t.receives, err := t.err)
    ensures Inv(t)
  {
    forall j | j in t.calls ensures CallOk(ViewOf(t, j)) {
      assert CallOk(ViewOf(s, j));
      assert ViewOf(t, j) == ViewOf(s, j);
    }
    forall j | j in t.calls ensures FromOk(t, j) { assert FromOk(s, j); }
  }

  lemma InjectCompleteView(v: View)
    requires CallOk(v) && v.call.pc == InjectPosted
    ensures CallOk(v.(call := Resulting(v.call, false).(pc := InjectCounted)))
  {
  }

  lemma InjectCompleteKeeps(s: State, k: CallId)
    requires Inv(s) && At(s, k, InjectPosted)
    ensures Inv(Set(s, k, Resulting(s.calls[k], false).(pc := InjectCounted)))
  {
    var v := ViewOf(s, k);
    var t := Set(s, k, Resulting(s.calls[k], false).(pc := InjectCounted));
    assert CallOk(v);
    InjectCompleteView(v);
    assert ViewOf(t, k) == v.(call := Resulting(v.call, false).(pc := InjectCounted));
    PlainMove(s, t, k);
  }

  lemma ScribbleView(v: View, data: seq<Byte>)
    requires CallOk(v) && v.call.kind == Send
    requires v.call.pc == Returned || v.call.pc == InjectReturned || v.call.pc == Failed
    ensures CallOk(v.(call := v.call.(user := data)))
  {
  }

  lemma ScribbleKeeps(s: State, k: CallId, data: seq<Byte>)
    requires Inv(s) && (At(s, k, Returned) || At(s, k, InjectReturned) || At(s, k, Failed)) && s.calls[k].kind == Send
    ensures Inv(Set(s, k, s.calls[k].(user := data)))
  {
    var v := ViewOf(s, k);
    var t := Set(s, k, s.calls[k].(user := data));
    assert CallOk(v);
    ScribbleView(v, data);
    assert ViewOf(t, k) == v.(call := v.call.(user := data));
    PlainMove(s, t, k);
  }

  /** What the provider reads, at whatever time, is the payload. */
  lemma SourceIsPayload(v: View)
    requires CallOk(v) && v.call.kind == Send && Source(v).Some?
    requires v.call.pc == Registered || (Live(v) && v.ctx.value.entry == C.Absent)
    ensures Source(v).value == v.call.payload
  {
  }

  lemma CaptureView(v: View)
    requires CallOk(v) && v.call.kind == Send && Live(v)
    ensures CallOk(v.(sent := Some(v.call.payload)))
  {
  }

  lemma CaptureKeeps(s: State, k: CallId)
    requires Inv(s) && k in s.calls && s.calls[k].kind == Send && InFlight(s, k) && Source(ViewOf(s, k)).Some?
    ensures Inv(DoCapture(s, k))
  {
    var v := ViewOf(s, k);
    assert CallOk(v);
    SourceIsPayload(v);
    CaptureView(v);
    assert ViewOf(DoCapture(s, k), k) == v.(sent := Some(v.call.payload));
    PlainMove(s, DoCapture(s, k), k);
  }

  lemma InjectView(v: View)
    requires CallOk(v) && v.call.kind == Send && v.call.pc == Registered
    ensures CallOk(v.(sent := Some(v.call.payload), call := v.call.(pc := Injected)))
  {
  }

  lemma InjectKeeps(s: State, k: CallId)
    requires Inv(s) && At(s, k, Registered) && s.calls[k].kind == Send && Source(ViewOf(s, k)).Some?
    ensures Inv(Go(DoCapture(s, k), k, Injected))
  {
    var v := ViewOf(s, k);
    var t := Go(DoCapture(s, k), k, Injected);
    assert CallOk(v);
    SourceIsPayload(v);
    InjectView(v);
    assert ViewOf(t, k) == v.(sent := Some(v.call.payload), call := v.call.(pc := Injected));
    PlainMove(s, t, k);
  }

  // ---------------------------------------------------------------- steps of the calling goroutine in the pool

  lemma AdmitView(v: View)
    requires CallOk(v) && v.call.pc == Entered && v.limit.Some? && |v.call.payload| <= v.limit.value
    ensures CallOk(v.(call := v.call.(pc := Admitting), point := Some(P.Admitted), held := None))
  {
  }

  lemma AdmitKeeps(s: State, k: CallId)
    requires Inv(s) && At(s, k, Entered) && Pooled(s, k) && P.Enabled(s.pl, P.Admit(k))
    ensures Inv(Go(Pool(s, P.Admit(k)), k, Admitting))
  {
    var t := Go(Pool(s, P.Admit(k)), k, Admitting);
    var v := ViewOf(s, k);
    assert CallOk(v);
    AdmitView(v);
    assert ViewOf(t, k) == v.(call := v.call.(pc := Admitting), point := Some(P.Admitted), held := None);
    PoolMove(s, t, k, P.Admit(k));
  }

  lemma MissView(v: View)
    requires CallOk(v) && v.call.pc == Admitting
    ensures CallOk(v.(point := Some(P.Provisioning), held := None))
  {
  }

  lemma MissKeeps(s: State, k: CallId)
    requires Inv(s) && At(s, k, Admitting) && P.Enabled(s.pl, P.Miss(k))
    ensures Inv(Pool(s, P.Miss(k)))
  {
    var t := Pool(s, P.Miss(k));
    var v := ViewOf(s, k);
    assert CallOk(v);
    MissView(v);
    assert ViewOf(t, k) == v.(point := Some(P.Provisioning), held := None);
    PoolMove(s, t, k, P.Miss(k));
  }

  lemma GetRegionView(v: View, r: P.RegionId, held: seq<Byte>)
    requires CallOk(v) && (v.call.pc == Admitting || (v.call.pc == Entered && v.strict)) && |v.call.payload| <= |held|
    ensures CallOk(v.(call := v.call.(pc := Filling, region := Some(r)), point := Some(P.Using(r)), held := Some(held)))
  {
  }

  /** Both ways of Acquire, and a registration of its own, put a region of the right size in the caller's hands. */
  lemma RegionArrives(s: P.State, k: CallId, p: P.Label)
    requires P.Inv(s) && P.Enabled(s, p) && (p == P.Take(k) || (p.Provision? && p.a == k) || (p.Register? && p.a == k))
    ensures var r := if p.Take? then s.chan[0] else p.r;
            PointOf(P.Step(s, p), k) == Some(P.Using(r))
    ensures HeldOf(P.Step(s, p), k).Some?
    ensures |HeldOf(P.Step(s, p), k).value| == if p.Register? then p.n else s.size
  {
    if p.Take? { assert P.PooledOk(s, 0); }
  }

  lemma GetRegionOwn(s: State, k: CallId, p: P.Label)
    requires P.Inv(s.pl) && GetsRegion(s, k, p) && P.Enabled(s.pl, p) && CallOk(ViewOf(s, k))
    ensures CallOk(ViewOf(DoGetRegion(s, k, p), k))
  {
    var t := DoGetRegion(s, k, p);
    var v := ViewOf(s, k);
    RegionArrives(s.pl, k, p);
    var r := Fetched(s, p).value;
    var held := HeldOf(t.pl, k).value;
    PoolKeys(s.pl, p);
    GetRegionView(v, r, held);
    assert ViewOf(t, k) == v.(call := v.call.(pc := Filling, region := Some(r)), point := Some(P.Using(r)),
                              held := Some(held));
  }

  lemma GetRegionOnly(s: State, k: CallId, p: P.Label)
    requires GetsRegion(s, k, p) && P.Enabled(s.pl, p) && DispOk(s) && s.wire.Keys <= s.calls.Keys
    ensures OnlyCall(s, DoGetRegion(s, k, p), k)
    ensures DoGetRegion(s, k, p).pl == P.Step(s.pl, p) && DoGetRegion(s, k, p).cx == s.cx && PoolSubject(p) == Some(k)
  {
    PoolKeys(s.pl, p);
  }

  lemma GetRegionKeeps(s: State, k: CallId, p: P.Label)
    requires Inv(s) && GetsRegion(s, k, p) && P.Enabled(s.pl, p)
    ensures Inv(DoGetRegion(s, k, p))
  {
    assert CallOk(ViewOf(s, k));
    GetRegionOwn(s, k, p);
    GetRegionOnly(s, k, p);
    PoolMove(s, DoGetRegion(s, k, p), k, p);
  }

  lemma FillView(v: View, held: seq<Byte>)
    requires CallOk(v) && v.call.pc == Filling && v.held.Some? && Carries(held, v.call.payload)
    ensures CallOk(v.(call := v.call.(pc := Ready), held := Some(held)))
  {
  }

  /** A write by the owner lands at the front of the region in its hands. */
  lemma WriteLands(s: P.State, k: CallId, data: seq<Byte>)
    requires P.Inv(s) && P.Enabled(s, P.Write(k, data)) && HeldOf(s, k).Some?
    ensures PointOf(P.Step(s, P.Write(k, data)), k) == PointOf(s, k)
    ensures |data| <= |HeldOf(s, k).value|
    ensures HeldOf(P.Step(s, P.Write(k, data)), k) == Some(Overlay(HeldOf(s, k).value, data))
  {
  }

  lemma FillKeeps(s: State, k: CallId)
    requires Inv(s) && At(s, k, Filling) && s.calls[k].kind == Send && P.Enabled(s.pl, P.Write(k, s.calls[k].user))
    ensures Inv(Go(Pool(s, P.Write(k, s.calls[k].user)), k, Ready))
  {
    var p := P.Write(k, s.calls[k].user);
    var t := Go(Pool(s, p), k, Ready);
    var v := ViewOf(s, k);
    assert CallOk(v);
    WriteLands(s.pl, k, s.calls[k].user);
    PoolKeys(s.pl, p);
    var held := Overlay(v.held.value, v.call.payload);
    FillView(v, held);
    assert ViewOf(t, k) == v.(call := v.call.(pc := Ready), held := Some(held));
    PoolMove(s, t, k, p);
  }

  lemma ProvisionFailsView(v: View)
    requires CallOk(v) && v.call.pc == Admitting
    ensures CallOk(v.(call := v.call.(pc := Failing), point := None, held := None))
  {
  }

  lemma ProvisionFailsKeeps(s: State, k: CallId)
    requires Inv(s) && At(s, k, Admitting) && P.Enabled(s.pl, P.ProvisionFails(k))
    ensures Inv(Go(Pool(s, P.ProvisionFails(k)), k, Failing))
  {
    var t := Go(Pool(s, P.ProvisionFails(k)), k, Failing);
    var v := ViewOf(s, k);
    assert CallOk(v);
    ProvisionFailsView(v);
    assert ViewOf(t, k) == v.(call := v.call.(pc := Failing), point := None, held := None);
    PoolMove(s, t, k, P.ProvisionFails(k));
  }

  /** Starting the release closure: the region is still in hand, about to be pushed or closed. */
  lemma ClosureStarts(s: P.State, k: CallId, p: P.Label)
    requires (p == P.Release(k) || p == P.CloseOwn(k)) && P.Enabled(s, p)
    ensures PointOf(P.Step(s, p), k).Some? && P.Hand(PointOf(P.Step(s, p), k).value) == P.Hand(s.callers[k])
    ensures !PointOf(P.Step(s, p), k).value.Using?
  {
  }

  lemma GiveBackView(v: View, point: P.Point, held: Option<seq<Byte>>)
    requires CallOk(v) && v.call.region.Some? && P.Hand(point) == v.call.region && !point.Using?
    requires (v.call.pc == Failing && v.ctx == None)
             || (v.call.pc == Undoing && v.ctx.Some? && v.ctx.value.stage == C.Freed)
    ensures CallOk(v.(call := v.call.(pc := GivingBack), point := Some(point), held := held))
  {
  }

  lemma GiveBackOwn(s: State, k: CallId, p: P.Label)
    requires (p == P.Release(k) || p == P.CloseOwn(k)) && P.Enabled(s.pl, p)
    requires k in s.calls && s.calls[k].region.Some? && CallOk(ViewOf(s, k))
    requires (At(s, k, Failing) && k !in s.cx.ctxs)
             || (At(s, k, Undoing) && k in s.cx.ctxs && s.cx.ctxs[k].stage == C.Freed)
    ensures CallOk(ViewOf(Go(Pool(s, p), k, GivingBack), k))
  {
    var t := Go(Pool(s, p), k, GivingBack);
    var v := ViewOf(s, k);
    ClosureStarts(s.pl, k, p);
    PoolKeys(s.pl, p);
    GiveBackView(v, PointOf(t.pl, k).value, HeldOf(t.pl, k));
    assert ViewOf(t, k) == v.(call := v.call.(pc := GivingBack), point := PointOf(t.pl, k), held := HeldOf(t.pl, k));
  }

  lemma GiveBackKeeps(s: State, k: CallId)
    requires Inv(s) && k in s.calls && CanRelease(s, k) && s.calls[k].region.Some?
    requires (At(s, k, Failing) && k !in s.cx.ctxs)
             || (At(s, k, Undoing) && k in s.cx.ctxs && s.cx.ctxs[k].stage == C.Freed)
    ensures Inv(Go(Released(s, k), k, GivingBack))
  {
    assert CallOk(ViewOf(s, k));
    GiveBackOwn(s, k, Closure(s, k));
    PoolKeys(s.pl, Closure(s, k));
    PoolMove(s, Go(Pool(s, Closure(s, k)), k, GivingBack), k, Closure(s, k));
  }

  lemma PoolStepView(v: View, point: Option<P.Point>, held: Option<seq<Byte>>)
    requires CallOk(v) && (v.call.pc == GivingBack || v.call.op.Freeing?)
    requires v.point.Some? && (point.Some? ==> P.Hand(point.value) == P.Hand(v.point.value) && !point.value.Using?)
    ensures CallOk(v.(point := point, held := held))
  {
  }

  lemma PoolStepOwn(s: State, k: CallId, p: P.Label)
    requires k in s.calls && (p == P.Push(k) || (p.CloseRegion? && p.a == k)) && P.Enabled(s.pl, p)
    requires (s.calls[k].pc == GivingBack || s.calls[k].op.Freeing?) && CallOk(ViewOf(s, k))
    ensures CallOk(ViewOf(Pool(s, p), k))
  {
    var t := Pool(s, p);
    var v := ViewOf(s, k);
    PoolKeys(s.pl, p);
    PoolStepView(v, PointOf(t.pl, k), HeldOf(t.pl, k));
    assert ViewOf(t, k) == v.(point := PointOf(t.pl, k), held := HeldOf(t.pl, k));
  }

  lemma PoolStepKeeps(s: State, k: CallId, p: P.Label)
    requires Inv(s) && k in s.calls && (p == P.Push(k) || (p.CloseRegion? && p.a == k)) && P.Enabled(s.pl, p)
    requires s.calls[k].pc == GivingBack || s.calls[k].op.Freeing?
    ensures Inv(Pool(s, p))
  {
    assert CallOk(ViewOf(s, k));
    PoolStepOwn(s, k, p);
    PoolOnly(s, k, p);
    PoolMove(s, Pool(s, p), k, p);
  }

  lemma PoolOnly(s: State, k: CallId, p: P.Label)
    requires k in s.calls && P.Enabled(s.pl, p) && PoolSubject(p) == Some(k) && DispOk(s) && s.wire.Keys <= s.calls.Keys
    ensures OnlyCall(s, Pool(s, p), k) && Pool(s, p).pl == P.Step(s.pl, p) && Pool(s, p).cx == s.cx
  {
    PoolKeys(s.pl, p);
  }

  // ---------------------------------------------------------------- steps of the calling goroutine on its context

  lemma MintView(v: View, x: C.Ctx)
    requires CallOk(v) && v.call.pc == Ready && Untouched(x) && x.stage == C.Minted && x.buf == NIL && x.sink == None
    ensures CallOk(v.(call := v.call.(pc := Minting), ctx := Some(x), staged := None))
  {
  }

  lemma MintOwn(s: State, k: CallId, a: Addr)
    requires C.Ledger(s.cx) && At(s, k, Ready) && C.Enabled(s.cx, C.Mint(k, a)) && CallOk(ViewOf(s, k))
    ensures CallOk(ViewOf(Go(Ctx(s, C.Mint(k, a)), k, Minting), k))
  {
    C.NilIsNotLive(s.cx);
    var t := Go(Ctx(s, C.Mint(k, a)), k, Minting);
    var v := ViewOf(s, k);
    var x := t.cx.ctxs[k];
    MintView(v, x);
    assert ViewOf(t, k) == v.(call := v.call.(pc := Minting), ctx := Some(x), staged := None);
  }

  lemma MintKeeps(s: State, k: CallId, a: Addr)
    requires Inv(s) && At(s, k, Ready) && C.Enabled(s.cx, C.Mint(k, a))
    ensures Inv(Go(Ctx(s, C.Mint(k, a)), k, Minting))
  {
    assert CallOk(ViewOf(s, k));
    MintOwn(s, k, a);
    CtxMove(s, Go(Ctx(s, C.Mint(k, a)), k, Minting), k, C.Mint(k, a));
  }

  lemma StoreView(v: View)
    requires CallOk(v) && v.call.pc == Minting && v.ctx.Some?
    ensures CallOk(v.(call := v.call.(pc := Registered), ctx := Some(v.ctx.value.(stage := C.Open))))
  {
  }

  lemma StoreOwn(s: State, k: CallId)
    requires At(s, k, Minting) && C.Enabled(s.cx, C.Store(k)) && CallOk(ViewOf(s, k))
    ensures CallOk(ViewOf(Go(Ctx(s, C.Store(k)), k, Registered), k))
  {
    var v := ViewOf(s, k);
    StoreView(v);
    assert ViewOf(Go(Ctx(s, C.Store(k)), k, Registered), k)
           == v.(call := v.call.(pc := Registered), ctx := Some(v.ctx.value.(stage := C.Open)));
  }

  lemma StoreKeeps(s: State, k: CallId)
    requires Inv(s) && At(s, k, Minting) && C.Enabled(s.cx, C.Store(k))
    ensures Inv(Go(Ctx(s, C.Store(k)), k, Registered))
  {
    assert CallOk(ViewOf(s, k));
    StoreOwn(s, k);
    CtxMove(s, Go(Ctx(s, C.Store(k)), k, Registered), k, C.Store(k));
  }

  lemma EnsureView(v: View, buf: Addr, staged: seq<Byte>)
    requires CallOk(v) && v.call.pc == Registered && v.call.region == None && v.ctx.Some?
             && |v.call.payload| <= |staged|
    ensures CallOk(v.(call := v.call.(pc := Buffered), ctx := Some(v.ctx.value.(buf := buf)), staged := Some(staged)))
  {
  }

  lemma EnsureOwn(s: State, k: CallId, a: Addr)
    requires C.Ledger(s.cx) && At(s, k, Registered) && s.calls[k].region == None && a != NIL && CallOk(ViewOf(s, k))
    requires C.Enabled(s.cx, C.Ensure(k, |s.calls[k].payload|, a))
    ensures CallOk(ViewOf(Go(Ctx(s, C.Ensure(k, |s.calls[k].payload|, a)), k, Buffered), k))
  {
    C.NilIsNotLive(s.cx);
    var n := |s.calls[k].payload|;
    var t := Go(Ctx(s, C.Ensure(k, n, a)), k, Buffered);
    var v := ViewOf(s, k);
    assert t.cx == C.DoEnsure(s.cx, k, n, a);
    assert s.cx.ctxs[k].buf == NIL;
    EnsureView(v, a, seq(n, _ => 0));
    assert ViewOf(t, k) == v.(call := v.call.(pc := Buffered), ctx := Some(v.ctx.value.(buf := a)),
                              staged := Some(seq(n, _ => 0)));
  }

  lemma EnsureKeeps(s: State, k: CallId, a: Addr)
    requires Inv(s) && At(s, k, Registered) && s.calls[k].region == None && a != NIL
    requires C.Enabled(s.cx, C.Ensure(k, |s.calls[k].payload|, a))
    ensures Inv(Go(Ctx(s, C.Ensure(k, |s.calls[k].payload|, a)), k, Buffered))
  {
    assert CallOk(ViewOf(s, k));
    EnsureOwn(s, k, a);
    CtxMove(s, Go(Ctx(s, C.Ensure(k, |s.calls[k].payload|, a)), k, Buffered), k, C.Ensure(k, |s.calls[k].payload|, a));
  }

  lemma StageSendView(v: View, staged: seq<Byte>)
    requires CallOk(v) && v.call.pc == Buffered && v.call.kind == Send && Carries(staged, v.call.payload)
    ensures CallOk(v.(call := v.call.(pc := Staged), staged := Some(staged)))
  {
  }

  lemma StageReceiveView(v: View)
    requires CallOk(v) && v.call.kind == Receive && v.ctx.Some?
    requires v.call.pc == Buffered || (v.call.pc == Registered && v.call.region.Some?)
    ensures CallOk(v.(call := v.call.(pc := Staged), ctx := Some(v.ctx.value.(sink := Some(v.call.user)))))
  {
  }

  /** A write into the staging buffer lands at its front. */
  lemma PokeLands(s: C.State, k: CallId, data: seq<Byte>)
    requires C.Enabled(s, C.Write(k, data))
    ensures StagedOf(s, k).Some? && |data| <= |StagedOf(s, k).value|
    ensures CtxOf(C.Step(s, C.Write(k, data)), k) == CtxOf(s, k)
    ensures StagedOf(C.Step(s, C.Write(k, data)), k) == Some(Overlay(StagedOf(s, k).value, data))
  {
  }

  lemma StageSendKeeps(s: State, k: CallId)
    requires Inv(s) && At(s, k, Buffered) && s.calls[k].kind == Send && C.Enabled(s.cx, C.Write(k, s.calls[k].user))
    ensures Inv(Go(Ctx(s, C.Write(k, s.calls[k].user)), k, Staged))
  {
    var l := C.Write(k, s.calls[k].user);
    var t := Go(Ctx(s, l), k, Staged);
    var v := ViewOf(s, k);
    assert CallOk(v);
    PokeLands(s.cx, k, s.calls[k].user);
    var staged := Overlay(v.staged.value, v.call.payload);
    StageSendView(v, staged);
    assert ViewOf(t, k) == v.(call := v.call.(pc := Staged), staged := Some(staged));
    CtxMove(s, t, k, l);
  }

  lemma StageReceiveKeeps(s: State, k: CallId)
    requires Inv(s) && k in s.calls && s.calls[k].kind == Receive && C.Enabled(s.cx, C.SetCopyBack(k, s.calls[k].user))
    requires At(s, k, Buffered) || (At(s, k, Registered) && s.calls[k].region.Some?)
    ensures Inv(Go(Ctx(s, C.SetCopyBack(k, s.calls[k].user)), k, Staged))
  {
    var l := C.SetCopyBack(k, s.calls[k].user);
    var t := Go(Ctx(s, l), k, Staged);
    var v := ViewOf(s, k);
    assert CallOk(v);
    StageReceiveView(v);
    assert ViewOf(t, k) == v.(call := v.call.(pc := Staged), ctx := Some(v.ctx.value.(sink := Some(v.call.user))));
    CtxMove(s, t, k, l);
  }

  lemma AcceptView(v: View)
    requires CallOk(v) && v.call.pc == Staged && v.ctx.Some?
    ensures CallOk(v.(call := v.call.(pc := Accepted), ctx := Some(v.ctx.value.(posted := true))))
  {
  }

  lemma AcceptKeeps(s: State, k: CallId)
    requires Inv(s) && At(s, k, Staged) && C.Enabled(s.cx, C.Accept(k))
    ensures Inv(Go(Ctx(s, C.Accept(k)), k, Accepted))
  {
    assert CallOk(ViewOf(s, k));
    AcceptOwn(s, k);
    CtxGoOnly(s, k, C.Accept(k), Accepted);
    CtxMove(s, Go(Ctx(s, C.Accept(k)), k, Accepted), k, C.Accept(k));
  }

  lemma AcceptOwn(s: State, k: CallId)
    requires At(s, k, Staged) && C.Enabled(s.cx, C.Accept(k)) && CallOk(ViewOf(s, k))
    ensures CallOk(ViewOf(Go(Ctx(s, C.Accept(k)), k, Accepted), k))
  {
    var t := Go(Ctx(s, C.Accept(k)), k, Accepted);
    var v := ViewOf(s, k);
    AcceptView(v);
    assert ViewOf(t, k) == v.(call := v.call.(pc := Accepted), ctx := Some(v.ctx.value.(posted := true)));
  }

  lemma SwapReleaseView(v: View, pc: Pc)
    requires CallOk(v) && v.ctx.Some?
    requires (v.call.pc == Injected && pc == InjectUndoing) || (v.call.pc == Failing && pc == Undoing)
    ensures CallOk(v.(call := v.call.(pc := pc), ctx := Some(C.SwapReleased(v.ctx.value))))
  {
  }

  lemma SwapReleaseOwn(s: State, k: CallId, pc: Pc)
    requires C.Enabled(s.cx, C.SwapRelease(k)) && k in s.calls && CallOk(ViewOf(s, k))
    requires (At(s, k, Injected) && pc == InjectUndoing) || (At(s, k, Failing) && pc == Undoing)
    ensures CallOk(ViewOf(Go(Ctx(s, C.SwapRelease(k)), k, pc), k))
  {
    var t := Go(Ctx(s, C.SwapRelease(k)), k, pc);
    var v := ViewOf(s, k);
    SwapReleaseView(v, pc);
    assert ViewOf(t, k) == v.(call := v.call.(pc := pc), ctx := Some(C.SwapReleased(v.ctx.value)));
  }

  lemma CtxGoOnly(s: State, k: CallId, l: C.Label, pc: Pc)
    requires k in s.calls && C.Enabled(s.cx, l) && DispOk(s) && s.wire.Keys <= s.calls.Keys
    ensures OnlyCall(s, Go(Ctx(s, l), k, pc), k)
    ensures Go(Ctx(s, l), k, pc).cx == C.Step(s.cx, l) && Go(Ctx(s, l), k, pc).pl == s.pl
  {
  }

  lemma SwapReleaseKeeps(s: State, k: CallId, pc: Pc)
    requires Inv(s) && C.Enabled(s.cx, C.SwapRelease(k))
    requires (At(s, k, Injected) && pc == InjectUndoing) || (At(s, k, Failing) && pc == Undoing)
    ensures Inv(Go(Ctx(s, C.SwapRelease(k)), k, pc))
  {
    assert CallOk(ViewOf(s, k));
    SwapReleaseOwn(s, k, pc);
    CtxGoOnly(s, k, C.SwapRelease(k), pc);
    CtxMove(s, Go(Ctx(s, C.SwapRelease(k)), k, pc), k, C.SwapRelease(k));
  }

  // ---------------------------------------------------------------- steps of a release, by whoever runs it

  /** The steps of a release do not change what the call, its region or its dispatcher role say. */
  lemma DeregisterView(v: View)
    requires CallOk(v) && v.ctx.Some? && v.ctx.value.stage == C.Claimed
    ensures CallOk(v.(ctx := Some(v.ctx.value.(stage := C.Detached))))
  {
  }

  lemma CallbacksView(v: View)
    requires CallOk(v) && v.ctx.Some? && v.ctx.value.stage == C.Detached
    ensures CallOk(v.(ctx := Some(C.CallbacksRun(v.ctx.value))))
  {
  }

  /** Copy-back: with a staging buffer the receiver's slice takes its front, without one it stays as it is. */
  lemma CopyBackView(v: View)
    requires CallOk(v) && v.ctx.Some? && v.ctx.value.stage == C.Called
    requires v.ctx.value.sink.Some? && v.staged.Some? ==> |v.ctx.value.sink.value| <= |v.staged.value|
    ensures var x := v.ctx.value;
            CallOk(v.(ctx := Some(if x.sink.Some? && v.staged.Some?
                                  then x.(stage := C.Copied, sink := Some(v.staged.value[..|x.sink.value|]))
                                  else x.(stage := C.Copied))))
  {
  }

  lemma UnstageView(v: View)
    requires CallOk(v) && v.ctx.Some? && v.ctx.value.stage == C.Copied
    ensures CallOk(v.(ctx := Some(v.ctx.value.(stage := C.Unstaged, buf := NIL)), staged := None))
  {
  }

  lemma FreeTokenView(v: View)
    requires CallOk(v) && v.ctx.Some? && v.ctx.value.stage == C.Unstaged
    ensures CallOk(v.(ctx := Some(v.ctx.value.(stage := C.Freed))))
  {
  }

  lemma CopyBackOwn(s: State, k: CallId)
    requires C.Inv(s.cx) && k in s.calls && C.Enabled(s.cx, C.CopyBack(k)) && CallOk(ViewOf(s, k))
    ensures CallOk(ViewOf(Ctx(s, C.CopyBack(k)), k))
  {
    C.NilIsNotLive(s.cx);
    assert C.Owns(s.cx, k);
    var t := Ctx(s, C.CopyBack(k));
    assert t.cx == C.DoCopyBack(s.cx, k);
    var v := ViewOf(s, k);
    CopyBackView(v);
    var x := v.ctx.value;
    assert ViewOf(t, k) == v.(ctx := Some(if x.sink.Some? && v.staged.Some?
                                          then x.(stage := C.Copied, sink := Some(v.staged.value[..|x.sink.value|]))
                                          else x.(stage := C.Copied)));
  }

  lemma UnstageOwn(s: State, k: CallId)
    requires C.Inv(s.cx) && k in s.calls && C.Enabled(s.cx, C.Unstage(k)) && CallOk(ViewOf(s, k))
    ensures CallOk(ViewOf(Ctx(s, C.Unstage(k)), k))
  {
    C.UnstageKeepsInv(s.cx, k);
    var t := Ctx(s, C.Unstage(k));
    assert t.cx == C.DoUnstage(s.cx, k);
    C.NilIsNotLive(t.cx);
    var v := ViewOf(s, k);
    UnstageView(v);
    assert ViewOf(t, k) == v.(ctx := Some(v.ctx.value.(stage := C.Unstaged, buf := NIL)), staged := None);
  }

  lemma FreeTokenOwn(s: State, k: CallId)
    requires C.Inv(s.cx) && k in s.calls && C.Enabled(s.cx, C.FreeToken(k)) && CallOk(ViewOf(s, k))
    ensures CallOk(ViewOf(Ctx(s, C.FreeToken(k)), k))
  {
    C.NilIsNotLive(s.cx);
    assert C.FieldsOk(s.cx.ctxs[k]);
    var t := Ctx(s, C.FreeToken(k));
    assert t.cx == C.DoFreeToken(s.cx, k);
    var v := ViewOf(s, k);
    FreeTokenView(v);
    assert ViewOf(t, k) == v.(ctx := Some(v.ctx.value.(stage := C.Freed)));
  }

  lemma DeregisterOwn(s: State, k: CallId)
    requires k in s.calls && C.Enabled(s.cx, C.Deregister(k)) && CallOk(ViewOf(s, k))
    ensures CallOk(ViewOf(Ctx(s, C.Deregister(k)), k))
  {
    var v := ViewOf(s, k);
    DeregisterView(v);
    assert ViewOf(Ctx(s, C.Deregister(k)), k) == v.(ctx := Some(v.ctx.value.(stage := C.Detached)));
  }

  lemma CallbacksOwn(s: State, k: CallId)
    requires k in s.calls && C.Enabled(s.cx, C.RunCallbacks(k)) && CallOk(ViewOf(s, k))
    ensures CallOk(ViewOf(Ctx(s, C.RunCallbacks(k)), k))
  {
    var v := ViewOf(s, k);
    CallbacksView(v);
    assert ViewOf(Ctx(s, C.RunCallbacks(k)), k) == v.(ctx := Some(C.CallbacksRun(v.ctx.value)));
  }

  lemma CtxStepOwn(s: State, k: CallId, c: C.Label)
    requires C.Inv(s.cx) && k in s.calls && ReleaseStep(k, c) && C.Enabled(s.cx, c) && CallOk(ViewOf(s, k))
    ensures CallOk(ViewOf(Ctx(s, c), k))
  {
    if c == C.Deregister(k) { DeregisterOwn(s, k); }
    else if c == C.RunCallbacks(k) { CallbacksOwn(s, k); }
    else if c == C.CopyBack(k) { CopyBackOwn(s, k); }
    else if c == C.Unstage(k) { UnstageOwn(s, k); }
    else { FreeTokenOwn(s, k); }
  }

  lemma CtxStepKeeps(s: State, k: CallId, c: C.Label)
    requires Inv(s) && k in s.calls && ReleaseStep(k, c) && C.Enabled(s.cx, c)
    ensures Inv(Ctx(s, c))
  {
    assert CallOk(ViewOf(s, k));
    CtxStepOwn(s, k, c);
    CtxStepOnly(s, k, c);
    CtxMove(s, Ctx(s, c), k, c);
  }

  lemma CtxStepOnly(s: State, k: CallId, c: C.Label)
    requires DispOk(s) && s.wire.Keys <= s.calls.Keys && k in s.calls && C.Enabled(s.cx, c)
    ensures OnlyCall(s, Ctx(s, c), k)
    ensures Ctx(s, c).cx == C.Step(s.cx, c) && Ctx(s, c).pl == s.pl
  {
  }

  // ---------------------------------------------------------------- the provider

  lemma DeliverStagedView(v: View, staged: seq<Byte>, m: seq<Byte>, from: Option<CallId>)
    requires CallOk(v) && v.call.kind == Receive && v.call.region == None && Live(v) && v.ctx.value.entry == C.Absent
    requires |m| <= |v.call.payload| && v.staged.Some? && |staged| == |v.staged.value| && Carries(staged, m)
    ensures CallOk(v.(call := v.call.(got := Some(m), from := from), staged := Some(staged)))
  {
  }

  lemma DeliverRegionView(v: View, held: seq<Byte>, m: seq<Byte>, from: Option<CallId>)
    requires CallOk(v) && v.call.kind == Receive && v.call.region.Some? && Live(v) && v.ctx.value.entry == C.Absent
    requires v.held.Some? && |held| == |v.held.value| && |m| <= |v.call.payload|
    ensures CallOk(v.(call := v.call.(got := Some(m), from := from), held := Some(held)))
  {
  }

  /** The message that arrives is the payload of its send, so `FromOk` holds of the receive. */
  lemma SentIsPayload(s: State, j: CallId)
    requires Inv(s) && j in s.calls && s.calls[j].kind == Send && j in s.wire
    ensures s.wire[j] == s.calls[j].payload
  {
    assert CallOk(ViewOf(s, j));
  }

  lemma DeliverKeepsFrom(s: State, t: State, k: CallId, msg: seq<Byte>, from: Option<CallId>)
    requires Inv(s) && k in s.calls && SentBy(s, msg, from)
    requires t.calls == s.calls[k := s.calls[k].(got := Some(msg), from := from)]
    ensures forall i {:trigger FromOk(t, i)} :: i in t.calls ==> FromOk(t, i)
  {
    if from.Some? { SentIsPayload(s, from.value); }
    forall i | i in t.calls ensures FromOk(t, i) { assert FromOk(s, i); }
  }

  /** A step that gives a receive its message; otherwise like CtxMove and PoolMove. */
  lemma DeliverMove(s: State, t: State, k: CallId, msg: seq<Byte>, from: Option<CallId>)
    requires Inv(s) && C.Inv(t.cx) && P.Inv(t.pl)
    requires k in s.calls && s.calls[k].kind == Receive && SentBy(s, msg, from)
    requires t == Set(s, k, s.calls[k].(got := Some(msg), from := from)).(cx := t.cx, pl := t.pl)
    requires forall i {:trigger ViewOf(t, i)} :: i in s.calls && i != k ==> ViewOf(t, i) == ViewOf(s, i)
    requires t.cx.ctxs.Keys <= t.calls.Keys && t.pl.callers.Keys <= t.calls.Keys
    requires t.pl.closed == s.pl.closed && t.pl.drain == s.pl.drain
    requires CallOk(ViewOf(t, k))
    ensures Inv(t)
  {
    MoveKeepsCalls(s, t, k);
    DeliverKeepsFrom(s, t, k, msg, from);
  }

  lemma DeliverStagedKeeps(s: State, k: CallId, msg: seq<Byte>, from: Option<CallId>)
    requires Inv(s) && k in s.calls && s.calls[k].kind == Receive && InFlight(s, k) && s.calls[k].region == None
    requires SentBy(s, msg, from) && |msg| <= |s.calls[k].payload|
    requires C.Enabled(s.cx, C.Write(k, msg))
    ensures Inv(DoDeliver(s, k, msg, from))
  {
    var l := C.Write(k, msg);
    var t := DoDeliver(s, k, msg, from);
    var v := ViewOf(s, k);
    assert CallOk(v);
    PokeLands(s.cx, k, msg);
    var staged := Overlay(v.staged.value, msg);
    DeliverStagedView(v, staged, msg, from);
    assert ViewOf(t, k) == v.(call := v.call.(got := Some(msg), from := from), staged := Some(staged));
    C.StepKeepsInv(s.cx, l);
    forall i | i in s.calls && i != k ensures ViewOf(t, i) == ViewOf(s, i) { CtxFrame(s.cx, l, i); }
    CtxKeys(s.cx, l);
    DeliverMove(s, t, k, msg, from);
  }

  lemma DeliverRegionKeeps(s: State, k: CallId, msg: seq<Byte>, from: Option<CallId>)
    requires Inv(s) && k in s.calls && s.calls[k].kind == Receive && InFlight(s, k) && s.calls[k].region.Some?
    requires SentBy(s, msg, from) && |msg| <= |s.calls[k].payload|
    requires P.Enabled(s.pl, P.Write(k, msg))
    ensures Inv(DoDeliver(s, k, msg, from))
  {
    var l := P.Write(k, msg);
    var t := DoDeliver(s, k, msg, from);
    var v := ViewOf(s, k);
    assert CallOk(v);
    WriteLands(s.pl, k, msg);
    var held := Overlay(v.held.value, msg);
    DeliverRegionView(v, held, msg, from);
    PoolKeys(s.pl, l);
    assert ViewOf(t, k) == v.(call := v.call.(got := Some(msg), from := from), held := Some(held));
    P.StepKeepsInv(s.pl, l);
    forall i | i in s.calls && i != k ensures ViewOf(t, i) == ViewOf(s, i) { PoolFrame(s.pl, l, i); }
    DeliverMove(s, t, k, msg, from);
  }

  // ---------------------------------------------------------------- the dispatcher

  lemma ReadEntryView(v: View, failed: bool)
    requires CallOk(v) && Live(v) && v.ctx.value.entry == C.Absent && (failed || Served(v))
    ensures CallOk(v.(ctx := Some(v.ctx.value.(entry := C.Read)), role := Reads(failed)))
  {
  }

  lemma ReadEntryOwn(s: State, k: CallId, failed: bool)
    requires s.disp == Polling && k in s.calls && C.Enabled(s.cx, C.ReadEntry(k)) && (failed || ServedBy(s, k))
    requires CallOk(ViewOf(s, k))
    ensures CallOk(ViewOf(Ctx(s, C.ReadEntry(k)).(disp := Holding(k, failed)), k))
  {
    var t := Ctx(s, C.ReadEntry(k)).(disp := Holding(k, failed));
    var v := ViewOf(s, k);
    ReadEntryView(v, failed);
    assert ViewOf(t, k) == v.(ctx := Some(v.ctx.value.(entry := C.Read)), role := Reads(failed));
  }

  lemma ReadEntryKeeps(s: State, k: CallId, failed: bool)
    requires Inv(s) && s.disp == Polling && k in s.calls && C.Enabled(s.cx, C.ReadEntry(k))
             && (failed || ServedBy(s, k))
    ensures Inv(Ctx(s, C.ReadEntry(k)).(disp := Holding(k, failed)))
  {
    assert CallOk(ViewOf(s, k));
    ReadEntryOwn(s, k, failed);
    CtxMove(s, Ctx(s, C.ReadEntry(k)).(disp := Holding(k, failed)), k, C.ReadEntry(k));
  }

  /** No call ever gives a posted context to Release, so the context protocol delivers exactly. */
  lemma ClientIsDisciplined(s: State)
    requires Inv(s)
    ensures C.Disciplined(s.cx)
  {
    forall c | c in s.cx.ctxs ensures C.Tame(s.cx.ctxs[c]) {
      assert c in s.cx.ctxs.Keys;
      assert CallOk(ViewOf(s, c));
      assert CtxPart(ViewOf(s, c));
    }
  }

  /** The dispatcher's lookup finds the context of the call whose entry it holds. */
  lemma LookupFindsOwn(s: State, k: CallId)
    requires Inv(s) && C.Enabled(s.cx, C.Lookup(k))
    ensures s.cx.ctxs[k].ptr in s.cx.registry && s.cx.registry[s.cx.ctxs[k].ptr] == k
  {
    ClientIsDisciplined(s);
    assert C.OwnEntry(k, s.cx.ctxs[k]) && C.Tame(s.cx.ctxs[k]) && C.FieldsOk(s.cx.ctxs[k]) && C.Registered(s.cx, k);
  }

  lemma LookupView(v: View, failed: bool, k: CallId)
    requires CallOk(v) && Live(v) && v.role == Reads(failed)
    ensures CallOk(v.(ctx := Some(v.ctx.value.(entry := C.Spent(Some(k)), loaded := true)), role := Swaps(failed)))
  {
  }

  lemma LookupEffect(s: State, k: CallId, failed: bool)
    requires C.Enabled(s.cx, C.Lookup(k)) && s.cx.ctxs[k].ptr in s.cx.registry && s.cx.registry[s.cx.ctxs[k].ptr] == k
    ensures var t := DoLookup(s, k, failed);
            t == s.(cx := C.DoLookup(s.cx, k), disp := Swapping(k, failed))
    ensures C.DoLookup(s.cx, k).ctxs == s.cx.ctxs[k := s.cx.ctxs[k].(entry := C.Spent(Some(k)), loaded := true)]
    ensures C.DoLookup(s.cx, k).live == s.cx.live
  {
  }

  lemma LookupOwn(s: State, k: CallId, failed: bool)
    requires s.disp == Holding(k, failed) && k in s.calls && C.Enabled(s.cx, C.Lookup(k)) && CallOk(ViewOf(s, k))
    requires s.cx.ctxs[k].ptr in s.cx.registry && s.cx.registry[s.cx.ctxs[k].ptr] == k
    ensures DoLookup(s, k, failed).disp == Swapping(k, failed)
    ensures CallOk(ViewOf(DoLookup(s, k, failed), k))
  {
    var t := DoLookup(s, k, failed);
    var v := ViewOf(s, k);
    LookupView(v, failed, k);
    LookupEffect(s, k, failed);
    assert ViewOf(t, k) == v.(ctx := Some(v.ctx.value.(entry := C.Spent(Some(k)), loaded := true)),
                              role := Swaps(failed));
  }

  lemma LookupKeeps(s: State, k: CallId, failed: bool)
    requires Inv(s) && s.disp == Holding(k, failed) && C.Enabled(s.cx, C.Lookup(k))
    ensures Inv(DoLookup(s, k, failed)) && DoLookup(s, k, failed).disp == Swapping(k, failed)
  {
    assert CallOk(ViewOf(s, k));
    LookupFindsOwn(s, k);
    LookupOwn(s, k, failed);
    CtxMove(s, DoLookup(s, k, failed), k, C.Lookup(k));
  }

  lemma SwapResolveView(v: View, failed: bool)
    requires CallOk(v) && Live(v) && v.role == Swaps(failed)
    ensures CallOk(v.(ctx := Some(C.SwapResolved(v.ctx.value)), role := Releases(failed)))
  {
  }

  lemma SwapResolveOwn(s: State, k: CallId, failed: bool)
    requires s.disp == Swapping(k, failed) && k in s.calls && C.Enabled(s.cx, C.SwapResolve(k)) && CallOk(ViewOf(s, k))
    ensures CallOk(ViewOf(Ctx(s, C.SwapResolve(k)).(disp := Releasing(k, failed)), k))
  {
    var t := Ctx(s, C.SwapResolve(k)).(disp := Releasing(k, failed));
    var v := ViewOf(s, k);
    SwapResolveView(v, failed);
    assert ViewOf(t, k) == v.(ctx := Some(C.SwapResolved(v.ctx.value)), role := Releases(failed));
  }

  lemma SwapResolveKeeps(s: State, k: CallId, failed: bool)
    requires Inv(s) && s.disp == Swapping(k, failed) && C.Enabled(s.cx, C.SwapResolve(k))
    ensures Inv(Ctx(s, C.SwapResolve(k)).(disp := Releasing(k, failed)))
  {
    assert CallOk(ViewOf(s, k));
    SwapResolveOwn(s, k, failed);
    CtxMove(s, Ctx(s, C.SwapResolve(k)).(disp := Releasing(k, failed)), k, C.SwapResolve(k));
  }

  lemma AttachedView(v: View, failed: bool)
    requires CallOk(v) && Live(v) && v.role == Releases(failed) && v.ctx.value.stage == C.Freed && v.call.pc == Returned
    ensures CallOk(v.(role := Stores(failed)))
  {
  }

  lemma StoredView(v: View, failed: bool)
    requires CallOk(v) && v.role == Stores(failed)
    ensures CallOk(v.(call := Resulting(v.call, failed), role := Completes))
  {
  }

  lemma DroppedView(v: View, failed: bool)
    requires CallOk(v) && Live(v) && v.role == Releases(failed) && v.ctx.value.stage == C.Freed && v.call.pc != Returned
    ensures CallOk(v.(call := v.call.(dropped := true), role := NoRole))
  {
  }

  /** The dispatcher's release runs to its end: the swap cannot have been lost. */
  lemma ReleaseIsOver(v: View)
    requires CallOk(v) && v.role.Releases? && v.ctx.Some?
    requires v.ctx.value.stage == C.Freed || v.ctx.value.winner != C.Resolver
    ensures Live(v) && v.ctx.value.stage == C.Freed
  {
    assert OpPart(v);
  }

  lemma AttachedKeeps(s: State, k: CallId, failed: bool)
    requires Inv(s) && s.disp == Releasing(k, failed) && At(s, k, Returned) && k in s.cx.ctxs
             && s.cx.ctxs[k].stage == C.Freed
    ensures Inv(s.(disp := Storing(k, failed)))
  {
    var v := ViewOf(s, k);
    var t := s.(disp := Storing(k, failed));
    assert CallOk(v);
    ReleaseIsOver(v);
    AttachedView(v, failed);
    assert ViewOf(t, k) == v.(role := Stores(failed));
    PlainMove(s, t, k);
  }

  lemma StoreResultKeeps(s: State, k: CallId, failed: bool)
    requires Inv(s) && s.disp == Storing(k, failed) && k in s.calls
    ensures Inv(Set(s, k, Resulting(s.calls[k], failed)).(disp := Completing(k)))
  {
    var v := ViewOf(s, k);
    var t := Set(s, k, Resulting(s.calls[k], failed)).(disp := Completing(k));
    assert CallOk(v);
    StoredView(v, failed);
    assert ViewOf(t, k) == v.(call := Resulting(v.call, failed), role := Completes);
    PlainMove(s, t, k);
  }

  lemma DroppedKeeps(s: State, k: CallId, failed: bool)
    requires Inv(s) && s.disp == Releasing(k, failed) && k in s.calls && s.calls[k].pc != Returned
    requires k in s.cx.ctxs && s.cx.ctxs[k].stage == C.Freed
    ensures Inv(Set(s, k, s.calls[k].(dropped := true)).(disp := Polling))
  {
    assert CallOk(ViewOf(s, k));
    DroppedOwn(s, k, failed);
    DroppedOnly(s, k, failed);
    PlainMove(s, Set(s, k, s.calls[k].(dropped := true)).(disp := Polling), k);
  }

  lemma DroppedOnly(s: State, k: CallId, failed: bool)
    requires s.disp == Releasing(k, failed) && k in s.calls && s.wire.Keys <= s.calls.Keys
    ensures OnlyCall(s, Set(s, k, s.calls[k].(dropped := true)).(disp := Polling), k)
  {
  }

  lemma DroppedOwn(s: State, k: CallId, failed: bool)
    requires s.disp == Releasing(k, failed) && k in s.calls && s.calls[k].pc != Returned && CallOk(ViewOf(s, k))
    requires k in s.cx.ctxs && s.cx.ctxs[k].stage == C.Freed
    ensures CallOk(ViewOf(Set(s, k, s.calls[k].(dropped := true)).(disp := Polling), k))
  {
    var v := ViewOf(s, k);
    var t := Set(s, k, s.calls[k].(dropped := true)).(disp := Polling);
    ReleaseIsOver(v);
    DroppedView(v, failed);
    assert ViewOf(t, k) == v.(call := v.call.(dropped := true), role := NoRole);
  }

  lemma LoadValueKeeps(s: State, k: CallId, failed: bool)
    requires Inv(s) && s.disp == Releasing(k, failed) && k in s.calls && k in s.cx.ctxs
    requires s.cx.ctxs[k].stage == C.Freed || s.cx.ctxs[k].winner != C.Resolver
    ensures Inv(DoLoadValue(s, k, failed))
  {
    var v := ViewOf(s, k);
    assert CallOk(v);
    ReleaseIsOver(v);
    if s.calls[k].pc == Returned { AttachedKeeps(s, k, failed); } else { DroppedKeeps(s, k, failed); }
  }

  // ---------------------------------------------------------------- completing an operation

  lemma TallyView(v: View)
    requires CallOk(v) && v.call.op.Stored?
    ensures CallOk(v.(call := v.call.(op := Tallied(v.call.op.failed))))
  {
  }

  lemma TallyKeeps(s: State, k: CallId)
    requires Inv(s) && k in s.calls && s.calls[k].op.Stored?
    ensures Inv(DoTally(s, k))
  {
    var f := s.calls[k].op.failed;
    var u := Set(s, k, s.calls[k].(op := Tallied(f)));
    var v := ViewOf(s, k);
    assert CallOk(v);
    TallyView(v);
    assert ViewOf(u, k) == v.(call := v.call.(op := Tallied(f)));
    PlainMove(s, u, k);
    CountersDoNotMatter(u, DoTally(s, k));
  }

  lemma FreeView(v: View, point: Option<P.Point>, held: Option<seq<Byte>>)
    requires CallOk(v) && v.call.op.Tallied?
    requires point.Some? ==> v.call.region.Some? && P.Hand(point.value) == v.call.region && !point.value.Using?
    ensures CallOk(v.(call := v.call.(op := Freeing(v.call.op.failed)), point := point, held := held))
  {
  }

  lemma FreeOwn(s: State, k: CallId, p: P.Label)
    requires (p == P.Release(k) || p == P.CloseOwn(k)) && P.Enabled(s.pl, p)
    requires k in s.calls && s.calls[k].region.Some? && s.calls[k].op.Tallied? && CallOk(ViewOf(s, k))
    ensures CallOk(ViewOf(Set(Pool(s, p), k, s.calls[k].(op := Freeing(s.calls[k].op.failed))), k))
  {
    var t := Set(Pool(s, p), k, s.calls[k].(op := Freeing(s.calls[k].op.failed)));
    var v := ViewOf(s, k);
    ClosureStarts(s.pl, k, p);
    PoolKeys(s.pl, p);
    FreeView(v, PointOf(t.pl, k), HeldOf(t.pl, k));
    assert ViewOf(t, k) == v.(call := v.call.(op := Freeing(v.call.op.failed)), point := PointOf(t.pl, k),
                              held := HeldOf(t.pl, k));
  }

  lemma FreeWithoutRegionKeeps(s: State, k: CallId)
    requires Inv(s) && k in s.calls && s.calls[k].op.Tallied? && s.calls[k].region == None
    ensures Inv(Set(s, k, s.calls[k].(op := Freeing(s.calls[k].op.failed))))
  {
    var v := ViewOf(s, k);
    assert CallOk(v);
    FreeView(v, v.point, v.held);
    var t := Set(s, k, s.calls[k].(op := Freeing(s.calls[k].op.failed)));
    assert ViewOf(t, k) == v.(call := v.call.(op := Freeing(v.call.op.failed)));
    PlainMove(s, t, k);
  }

  lemma FreeKeeps(s: State, k: CallId)
    requires Inv(s) && k in s.calls && s.calls[k].op.Tallied? && CanRelease(s, k)
    ensures Inv(DoFree(s, k))
  {
    if s.calls[k].region == None {
      FreeWithoutRegionKeeps(s, k);
    } else {
      FreeWithRegionKeeps(s, k, Closure(s, k));
    }
  }

  lemma FreeWithRegionKeeps(s: State, k: CallId, p: P.Label)
    requires Inv(s) && (p == P.Release(k) || p == P.CloseOwn(k)) && P.Enabled(s.pl, p)
    requires k in s.calls && s.calls[k].region.Some? && s.calls[k].op.Tallied?
    ensures Inv(Set(Pool(s, p), k, s.calls[k].(op := Freeing(s.calls[k].op.failed))))
  {
    assert CallOk(ViewOf(s, k));
    FreeOwn(s, k, p);
    PoolKeys(s.pl, p);
    PoolMove(s, Set(Pool(s, p), k, s.calls[k].(op := Freeing(s.calls[k].op.failed))), k, p);
  }

  lemma FinishView(v: View)
    requires CallOk(v) && v.call.op.Freeing? && v.point == None
    ensures CallOk(v.(call := v.call.(op := Done(v.call.op.failed)), role := NoRole))
  {
  }

  lemma FinishOwn(s: State, k: CallId)
    requires Completer(s, k) && s.calls[k].op.Freeing? && k !in s.pl.callers && CallOk(ViewOf(s, k))
    ensures CallOk(ViewOf(DoFinish(s, k), k))
    ensures ViewOf(DoFinish(s, k), k).role == NoRole
  {
    var v := ViewOf(s, k);
    FinishView(v);
    assert ViewOf(DoFinish(s, k), k) == v.(call := v.call.(op := Done(v.call.op.failed)), role := NoRole);
  }

  lemma FinishKeeps(s: State, k: CallId)
    requires Inv(s) && Completer(s, k) && s.calls[k].op.Freeing? && k !in s.pl.callers
    ensures Inv(DoFinish(s, k))
  {
    assert CallOk(ViewOf(s, k));
    FinishOwn(s, k);
    FinishOnly(s, k);
    PlainMove(s, DoFinish(s, k), k);
  }

  lemma FinishOnly(s: State, k: CallId)
    requires Completer(s, k) && s.calls[k].op.Freeing? && DispOk(s) && s.wire.Keys <= s.calls.Keys
    ensures OnlyCall(s, DoFinish(s, k), k) && DoFinish(s, k).cx == s.cx && DoFinish(s, k).pl == s.pl
  {
  }

  // ---------------------------------------------------------------- steps about no call

  /** The pool is as it was, or its closer took a step. */
  ghost predicate PoolClosing(s: P.State, t: P.State) {
    t == s || exists p :: P.Enabled(s, p) && PoolSubject(p) == None && t == P.Step(s, p)
  }

  lemma ClosingFrame(s: P.State, t: P.State, j: CallId)
    requires P.Inv(s) && PoolClosing(s, t)
    ensures PointOf(t, j) == PointOf(s, j) && HeldOf(t, j) == HeldOf(s, j)
    ensures t.size == s.size && t.callers.Keys <= s.callers.Keys
  {
    if t != s {
      var p :| P.Enabled(s, p) && PoolSubject(p) == None && t == P.Step(s, p);
      PoolFrame(s, p, j);
      PoolKeys(s, p);
    }
  }

  lemma OtherKeeps(s: State, t: State)
    requires Inv(s) && P.Inv(t.pl) && t.cx == s.cx && t.calls == s.calls && t.wire == s.wire
    requires t.hasPool == s.hasPool && t.requiresMR == s.requiresMR && PoolClosing(s.pl, t.pl)
    requires t.disp == s.disp || (s.disp == Polling && t.disp == Exited)
    requires DispOk(t) && CloserOk(t)
    ensures Inv(t)
  {
    ClosingFrame(s.pl, t.pl, 0);
    forall j | j in t.calls ensures CallOk(ViewOf(t, j)) {
      assert CallOk(ViewOf(s, j));
      ClosingFrame(s.pl, t.pl, j);
      assert ViewOf(t, j) == ViewOf(s, j);
    }
    forall j | j in t.calls ensures FromOk(t, j) { assert FromOk(s, j); }
  }

  lemma ClosePoolKeeps(s: State)
    requires Inv(s) && s.closer == Tearing && P.Enabled(s.pl, P.ClosePool)
    ensures Inv(Pool(s, P.ClosePool).(closer := Draining))
  {
    P.StepKeepsInv(s.pl, P.ClosePool);
    OtherKeeps(s, Pool(s, P.ClosePool).(closer := Draining));
  }

  lemma DrainStepKeeps(s: State, p: P.Label)
    requires Inv(s) && s.closer == Draining && (p == P.DrainTake || p.DrainClose? || p == P.DrainEnd)
             && P.Enabled(s.pl, p)
    ensures Inv(Pool(s, p))
  {
    P.StepKeepsInv(s.pl, p);
    OtherKeeps(s, Pool(s, p));
  }

  lemma PrepareKeeps(s: State, l: PrepareStep)
    requires Inv(s) && CanPrepare(s, l)
    ensures Inv(DoPrepare(s, l))
  {
    match l
    case Begin(k, kind, payload) => BeginKeeps(s, k, kind, payload);
    case Admit(k) => AdmitKeeps(s, k);
    case Miss(k) => MissKeeps(s, k);
    case GetRegion(k, p) => GetRegionKeeps(s, k, p);
    case NoRegion(k) => AdvanceKeeps(s, k, Ready);
    case Fill(k) => if s.calls[k].kind == Send { FillKeeps(s, k); } else { AdvanceKeeps(s, k, Ready); }
    case ProvisionFails(k) => ProvisionFailsKeeps(s, k);
  }

  lemma StageKeeps(s: State, k: CallId)
    requires Inv(s) && CanPost(s, Stage(k))
    ensures Inv(DoStage(s, k))
  {
    assert CallOk(ViewOf(s, k));
    if s.calls[k].kind == Receive { StageReceiveKeeps(s, k); }
    else if s.calls[k].region == None { StageSendKeeps(s, k); }
    else { AdvanceKeeps(s, k, Staged); }
  }

  lemma CountKeeps(s: State, k: CallId)
    requires Inv(s) && At(s, k, Accepted)
    ensures Inv(CountPost(Go(s, k, Counted), s.calls[k].kind))
  {
    AdvanceKeeps(s, k, Counted);
    CountersDoNotMatter(Go(s, k, Counted), CountPost(Go(s, k, Counted), s.calls[k].kind));
  }

  lemma PostKeeps(s: State, l: PostStep)
    requires Inv(s) && CanPost(s, l)
    ensures Inv(DoPost(s, l))
  {
    match l
    case Mint(k, a) => MintKeeps(s, k, a);
    case Store(k) => StoreKeeps(s, k);
    case Inject(k) => InjectKeeps(s, k);
    case Ensure(k, a) => EnsureKeeps(s, k, a);
    case Stage(k) => StageKeeps(s, k);
    case Accept(k) => AcceptKeeps(s, k);
    case Count(k) => CountKeeps(s, k);
    case Attach(k) => AdvanceKeeps(s, k, Returned);
  }

  lemma GiveBackStepKeeps(s: State, k: CallId)
    requires Inv(s) && CanUndo(s, GiveBack(k))
    ensures Inv(Go(Released(s, k), k, GivingBack))
  {
    if s.calls[k].region.Some? { GiveBackKeeps(s, k); } else { AdvanceKeeps(s, k, GivingBack); }
  }

  lemma InjectCountStepKeeps(s: State, k: CallId)
    requires Inv(s) && CanUndo(s, InjectCount(k))
    ensures Inv(DoUndo(s, InjectCount(k)))
  {
    AdvanceKeeps(s, k, InjectPosted);
    CountersDoNotMatter(Go(s, k, InjectPosted), DoUndo(s, InjectCount(k)));
  }

  /** The dispatcher's release steps are about a call it knows. */
  lemma CtxStepStepKeeps(s: State, k: CallId, c: C.Label)
    requires Inv(s) && CanUndo(s, CtxStep(k, c))
    ensures Inv(Ctx(s, c))
  {
    assert DispOk(s);
    CtxStepKeeps(s, k, c);
  }

  lemma UndoKeeps(s: State, l: UndoStep)
    requires Inv(s) && CanUndo(s, l)
    ensures Inv(DoUndo(s, l))
  {
    match l
    case Fail(k) => AdvanceKeeps(s, k, Failing);
    case SwapRelease(k) => SwapReleaseKeeps(s, k, if s.calls[k].pc == Injected then InjectUndoing else Undoing);
    case CtxStep(k, c) => CtxStepStepKeeps(s, k, c);
    case GiveBack(k) => GiveBackStepKeeps(s, k);
    case PoolStep(k, p) => PoolStepKeeps(s, k, p);
    case EndFail(k) => AdvanceKeeps(s, k, Failed);
    case InjectCount(k) => InjectCountStepKeeps(s, k);
    case InjectComplete(k) => InjectCompleteKeeps(s, k);
    case InjectReturn(k) => AdvanceKeeps(s, k, InjectReturned);
  }

  lemma NetKeeps(s: State, l: NetStep)
    requires Inv(s) && CanNet(s, l)
    ensures Inv(DoNet(s, l))
  {
    match l
    case Scribble(k, data) => ScribbleKeeps(s, k, data);
    case Capture(k) => CaptureKeeps(s, k);
    case Deliver(k, msg, from) =>
      if s.calls[k].region.Some? {
        DeliverRegionKeeps(s, k, msg, from);
      } else {
        DeliverStagedKeeps(s, k, msg, from);
      }
  }

  lemma DispatchKeeps(s: State, l: DispatchStep)
    requires Inv(s) && CanDispatch(s, l)
    ensures Inv(DoDispatch(s, l))
  {
    match l
    case ReadEntry(k, failed) => ReadEntryKeeps(s, k, failed);
    case Lookup(k) => LookupKeeps(s, k, s.disp.failed);
    case SwapResolve(k) => SwapResolveKeeps(s, k, s.disp.failed);
    case LoadValue(k) => LoadValueKeeps(s, k, s.disp.failed);
    case StoreResult(k) => StoreResultKeeps(s, k, s.disp.failed);
    case Tally(k) => TallyKeeps(s, k);
    case Free(k) => FreeKeeps(s, k);
    case Finish(k) => FinishKeeps(s, k);
    case RecordError(e) => CountersDoNotMatter(s, DoDispatch(s, l));
    case Exit => OtherKeeps(s, DoDispatch(s, l));
  }

  lemma ShutKeeps(s: State, l: ShutStep)
    requires Inv(s) && CanShut(s, l)
    ensures Inv(DoShut(s, l))
  {
    match l
    case ClosePool => ClosePoolKeeps(s);
    case DrainStep(p) => DrainStepKeeps(s, p);
    case _ => OtherKeeps(s, DoShut(s, l));
  }

  /** Every step of every goroutine, of the provider and of the senders' own code keeps the invariant. */
  lemma StepKeepsInv(s: State, l: Label)
    requires Inv(s) && Enabled(s, l)
    ensures Inv(Step(s, l))
  {
    match l
    case Prepare(a) => PrepareKeeps(s, a);
    case Post(a) => PostKeeps(s, a);
    case Undo(a) => UndoKeeps(s, a);
    case Net(a) => NetKeeps(s, a);
    case Dispatch(a) => DispatchKeeps(s, a);
    case Shut(a) => ShutKeeps(s, a);
  }
}
