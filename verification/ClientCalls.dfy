/** What a call of SendAsync or ReceiveAsync can always still do, whatever everybody else does. */
module ClientCalls {
  import opened Basics
  import C = ContextProtocol
  import P = PoolProtocol
  import opened ClientProtocol
  import opened ClientInvariant
  import opened ClientPreservation
  import opened ClientTheorems
  import opened ClientSteps
  import opened ClientProgress

  lemma PrepareLeads(s: State, l: PrepareStep, t: State)
    requires CanPrepare(s, l) && DoPrepare(s, l) == t
    ensures Leads(s, Prepare(l), t)
  {
  }

  lemma PostLeads(s: State, l: PostStep, t: State)
    requires CanPost(s, l) && DoPost(s, l) == t
    ensures Leads(s, Post(l), t)
  {
  }

  /** A number beyond a finite set: an address that malloc, or an identifier that the provider, can answer with. */
  lemma {:induction false} Beyond(xs: set<nat>) returns (b: nat)
    ensures b > 0 && forall x :: x in xs ==> x < b
    decreases |xs|
  {
    if xs == {} {
      return 1;
    }
    var x :| x in xs;
    var c := Beyond(xs - {x});
    b := if x < c then c else x + 1;
    assert forall y :: y in xs ==> y == x || y in xs - {x};
  }

  // ---------------------------------------------------------------- to a posted request

  /** The call has returned its future; its request is with the provider, and nothing else of the call has changed. */
  ghost predicate Posted(s: State, t: State, k: CallId)
    requires k in s.calls
  {
    && Inv(t) && t.disp == s.disp && t.closer == s.closer && InFlight(t, k)
    && k in t.calls && t.calls == s.calls[k := s.calls[k].(pc := Returned, region := t.calls[k].region)]
  }

  /** The same with a step in front that moves only the call, from one place of its code to the next. */
  lemma FirstToPosted(s: State, l: Label, s1: State, rest: Schedule, t: State, k: CallId, pc: Pc)
      returns (ls: Schedule)
    requires Leads(s, l, s1) && Own(l, k) && Goes(s1, rest, t, k)
    requires k in s.calls && s1.calls == s.calls[k := s.calls[k].(pc := pc)] && s1.disp == s.disp
    requires s1.closer == s.closer && Posted(s1, t, k) && t.calls[k].region == s1.calls[k].region
    ensures Goes(s, ls, t, k) && Posted(s, t, k) && t.calls[k].region == s.calls[k].region
  {
    ls := First(s, l, s1, rest, t, k);
  }

  lemma CountedPosts(s: State, k: CallId) returns (ls: Schedule, t: State)
    requires Inv(s) && At(s, k, Counted) && InFlight(s, k)
    ensures Goes(s, ls, t, k) && Posted(s, t, k) && t.calls[k].region == s.calls[k].region
  {
    t := Go(s, k, Returned);
    PostKeeps(s, Attach(k));
    PostLeads(s, Attach(k), t);
    Stays(t, k);
    ls := First(s, Post(Attach(k)), t, [], t, k);
  }

  lemma AcceptedPosts(s: State, k: CallId) returns (ls: Schedule, t: State)
    requires Inv(s) && At(s, k, Accepted) && InFlight(s, k)
    ensures Goes(s, ls, t, k) && Posted(s, t, k) && t.calls[k].region == s.calls[k].region
  {
    var s1 := CountStep(s, k);
    ls, t := CountedPosts(s1, k);
    ls := FirstToPosted(s, Post(Count(k)), s1, ls, t, k, Counted);
  }

  lemma CountStep(s: State, k: CallId) returns (t: State)
    requires Inv(s) && At(s, k, Accepted)
    ensures Leads(s, Post(Count(k)), t) && Inv(t) && t.disp == s.disp && t.closer == s.closer && t.cx == s.cx
    ensures t.calls == s.calls[k := s.calls[k].(pc := Counted)]
  {
    t := CountPost(Go(s, k, Counted), s.calls[k].kind);
    CountKeeps(s, k);
    PostLeads(s, Count(k), t);
  }

  lemma StagedView(v: View)
    requires CallOk(v) && v.call.pc == ClientProtocol.Staged
    ensures v.ctx.Some? && v.ctx.value.stage == C.Open && !v.ctx.value.posted && v.ctx.value.entry == C.Absent
  {
    assert CtxPart(v);
  }

  lemma StagedPosts(s: State, k: CallId) returns (ls: Schedule, t: State)
    requires Inv(s) && At(s, k, ClientProtocol.Staged)
    ensures Goes(s, ls, t, k) && Posted(s, t, k) && t.calls[k].region == s.calls[k].region
  {
    var s1 := AcceptStep(s, k);
    ls, t := AcceptedPosts(s1, k);
    ls := FirstToPosted(s, Post(Accept(k)), s1, ls, t, k, Accepted);
  }

  lemma AcceptStep(s: State, k: CallId) returns (t: State)
    requires Inv(s) && At(s, k, ClientProtocol.Staged)
    ensures Leads(s, Post(Accept(k)), t) && Inv(t) && t.disp == s.disp && t.closer == s.closer && InFlight(t, k)
    ensures t.calls == s.calls[k := s.calls[k].(pc := Accepted)]
  {
    assert CallOk(ViewOf(s, k));
    StagedView(ViewOf(s, k));
    t := Go(Ctx(s, C.Accept(k)), k, Accepted);
    AcceptKeeps(s, k);
    PostLeads(s, Accept(k), t);
  }

  /** There is room for what the call writes. */
  lemma WritableView(v: View)
    requires CallOk(v) && (v.call.pc == Buffered || (v.call.pc == Registered && v.call.region.Some?))
    ensures v.call.user == v.call.payload
    ensures v.ctx.Some? && v.ctx.value.stage == C.Open && !v.ctx.value.posted && v.ctx.value.entry == C.Absent
    ensures v.call.region == None ==> v.staged.Some? && |v.call.payload| <= |v.staged.value|
    ensures v.call.region.Some? ==> v.ctx.value.buf == NIL
  {
    assert CtxPart(v) && StagingPart(v) && NoStagingPart(v) && DataPart(v);
  }

  lemma CanStage(s: State, k: CallId)
    requires Inv(s) && k in s.calls
    requires s.calls[k].pc == Buffered || (s.calls[k].pc == Registered && s.calls[k].region.Some?)
    ensures CanPost(s, Stage(k))
  {
    assert CallOk(ViewOf(s, k));
    WritableView(ViewOf(s, k));
  }

  lemma BufferedPosts(s: State, k: CallId) returns (ls: Schedule, t: State)
    requires Inv(s) && k in s.calls
    requires s.calls[k].pc == Buffered || (s.calls[k].pc == Registered && s.calls[k].region.Some?)
    ensures Goes(s, ls, t, k) && Posted(s, t, k) && t.calls[k].region == s.calls[k].region
  {
    var s1 := StageStep(s, k);
    ls, t := StagedPosts(s1, k);
    ls := FirstToPosted(s, Post(Stage(k)), s1, ls, t, k, ClientProtocol.Staged);
  }

  lemma StageStep(s: State, k: CallId) returns (t: State)
    requires Inv(s) && k in s.calls
    requires s.calls[k].pc == Buffered || (s.calls[k].pc == Registered && s.calls[k].region.Some?)
    ensures Leads(s, Post(Stage(k)), t) && Inv(t) && t.disp == s.disp && t.closer == s.closer
    ensures t.calls == s.calls[k := s.calls[k].(pc := ClientProtocol.Staged)]
  {
    CanStage(s, k);
    t := DoStage(s, k);
    StageKeeps(s, k);
    PostLeads(s, Stage(k), t);
  }

  lemma RegisteredView(v: View)
    requires CallOk(v) && v.call.pc == Registered
    ensures v.ctx.Some? && v.ctx.value.stage == C.Open && !v.ctx.value.posted && v.ctx.value.sink == None
    ensures v.ctx.value.buf == NIL && |v.call.payload| > 0
  {
    assert CtxPart(v) && DataPart(v);
  }

  lemma RegisteredPosts(s: State, k: CallId) returns (ls: Schedule, t: State)
    requires Inv(s) && At(s, k, Registered)
    ensures Goes(s, ls, t, k) && Posted(s, t, k) && t.calls[k].region == s.calls[k].region
  {
    if s.calls[k].region.Some? {
      ls, t := BufferedPosts(s, k);
      return;
    }
    var a, s1 := EnsureStep(s, k);
    ls, t := BufferedPosts(s1, k);
    ls := FirstToPosted(s, Post(Ensure(k, a)), s1, ls, t, k, Buffered);
  }

  lemma EnsureStep(s: State, k: CallId) returns (a: Addr, t: State)
    requires Inv(s) && At(s, k, Registered) && s.calls[k].region == None
    ensures Leads(s, Post(Ensure(k, a)), t) && Inv(t) && t.disp == s.disp && t.closer == s.closer
    ensures t.calls == s.calls[k := s.calls[k].(pc := Buffered)]
  {
    assert CallOk(ViewOf(s, k));
    RegisteredView(ViewOf(s, k));
    a := Beyond(s.cx.live.Keys);
    t := Go(Ctx(s, C.Ensure(k, |s.calls[k].payload|, a)), k, Buffered);
    EnsureKeeps(s, k, a);
    PostLeads(s, Ensure(k, a), t);
  }

  lemma MintingPosts(s: State, k: CallId) returns (ls: Schedule, t: State)
    requires Inv(s) && At(s, k, Minting)
    ensures Goes(s, ls, t, k) && Posted(s, t, k) && t.calls[k].region == s.calls[k].region
  {
    var s1 := StoreContext(s, k);
    ls, t := RegisteredPosts(s1, k);
    ls := FirstToPosted(s, Post(Store(k)), s1, ls, t, k, Registered);
  }

  lemma MintingView(v: View)
    requires CallOk(v) && v.call.pc == Minting
    ensures v.ctx.Some? && v.ctx.value.stage == C.Minted
  {
    assert CtxPart(v);
  }

  lemma StoreContext(s: State, k: CallId) returns (t: State)
    requires Inv(s) && At(s, k, Minting)
    ensures Leads(s, Post(Store(k)), t) && Inv(t) && t.disp == s.disp && t.closer == s.closer
    ensures t.calls == s.calls[k := s.calls[k].(pc := Registered)]
  {
    assert CallOk(ViewOf(s, k));
    MintingView(ViewOf(s, k));
    t := Go(Ctx(s, C.Store(k)), k, Registered);
    StoreKeeps(s, k);
    PostLeads(s, Store(k), t);
  }

  lemma ReadyView(v: View)
    requires CallOk(v) && v.call.pc == Ready
    ensures v.ctx == None
  {
    assert CtxPart(v);
  }

  lemma MintStep(s: State, k: CallId) returns (a: Addr, t: State)
    requires Inv(s) && At(s, k, Ready)
    ensures Leads(s, Post(Mint(k, a)), t) && Inv(t) && t.disp == s.disp && t.closer == s.closer
    ensures t.calls == s.calls[k := s.calls[k].(pc := Minting)]
  {
    assert CallOk(ViewOf(s, k));
    ReadyView(ViewOf(s, k));
    a := Beyond(s.cx.live.Keys);
    t := Go(Ctx(s, C.Mint(k, a)), k, Minting);
    MintKeeps(s, k, a);
    PostLeads(s, Mint(k, a), t);
  }

  lemma ReadyPosts(s: State, k: CallId) returns (ls: Schedule, t: State)
    requires Inv(s) && At(s, k, Ready)
    ensures Goes(s, ls, t, k) && Posted(s, t, k) && t.calls[k].region == s.calls[k].region
  {
    var a, s1 := MintStep(s, k);
    ls, t := MintingPosts(s1, k);
    ls := FirstToPosted(s, Post(Mint(k, a)), s1, ls, t, k, Minting);
  }

  // ---------------------------------------------------------------- to a region

  lemma FillingView(v: View)
    requires CallOk(v) && v.call.pc == Filling
    ensures v.call.region.Some? && v.point == Some(P.Using(v.call.region.value)) && v.held.Some?
    ensures |v.call.user| <= |v.held.value|
  {
    assert RegionPart(v) && DataPart(v);
  }

  lemma FillStep(s: State, k: CallId) returns (t: State)
    requires Inv(s) && At(s, k, Filling)
    ensures Leads(s, Prepare(Fill(k)), t) && Inv(t) && t.disp == s.disp && t.closer == s.closer
    ensures t.calls == s.calls[k := s.calls[k].(pc := Ready)]
  {
    assert CallOk(ViewOf(s, k));
    FillingView(ViewOf(s, k));
    t := DoFill(s, k);
    PrepareKeeps(s, Fill(k));
    PrepareLeads(s, Fill(k), t);
  }

  lemma FillingReady(s: State, k: CallId) returns (ls: Schedule, t: State)
    requires Inv(s) && At(s, k, Filling)
    ensures Goes(s, ls, t, k) && Prepared(s, t, k) && t.calls[k].region.Some?
  {
    assert CallOk(ViewOf(s, k));
    FillingView(ViewOf(s, k));
    t := FillStep(s, k);
    Stays(t, k);
    ls := First(s, Prepare(Fill(k)), t, [], t, k);
  }

  /** The request of the call is built. */
  ghost predicate Prepared(s: State, t: State, k: CallId)
    requires k in s.calls
  {
    && Inv(t) && t.disp == s.disp && t.closer == s.closer
    && k in t.calls && t.calls == s.calls[k := s.calls[k].(pc := Ready, region := t.calls[k].region)]
  }

  lemma RegionReady(s: State, k: CallId, p: P.Label) returns (ls: Schedule, t: State)
    requires Inv(s) && GetsRegion(s, k, p) && P.Enabled(s.pl, p) && k in s.calls
    ensures Goes(s, ls, t, k) && Prepared(s, t, k) && t.calls[k].region.Some?
  {
    var s1 := DoGetRegion(s, k, p);
    GetRegionKeeps(s, k, p);
    PrepareLeads(s, GetRegion(k, p), s1);
    ls, t := FillingReady(s1, k);
    ls := First(s, Prepare(GetRegion(k, p)), s1, ls, t, k);
  }

  lemma AdmittingView(v: View)
    requires CallOk(v) && v.call.pc == Admitting
    ensures v.point == Some(P.Admitted) || v.point == Some(P.Provisioning)
  {
    assert RegionPart(v);
  }

  /** In Acquire: the pool has a region, or one is provisioned. */
  lemma AdmittingReady(s: State, k: CallId) returns (ls: Schedule, t: State)
    requires Inv(s) && At(s, k, Admitting)
    ensures Goes(s, ls, t, k) && Prepared(s, t, k) && t.calls[k].region.Some?
  {
    assert CallOk(ViewOf(s, k));
    AdmittingView(ViewOf(s, k));
    if s.pl.callers[k] == P.Provisioning {
      ls, t := ProvisioningReady(s, k);
    } else if s.pl.chan != [] {
      ls, t := RegionReady(s, k, P.Take(k));
    } else {
      var s1 := Pool(s, P.Miss(k));
      MissKeeps(s, k);
      PrepareLeads(s, Miss(k), s1);
      ls, t := ProvisioningReady(s1, k);
      ls := First(s, Prepare(Miss(k)), s1, ls, t, k);
    }
  }

  lemma ProvisioningReady(s: State, k: CallId) returns (ls: Schedule, t: State)
    requires Inv(s) && At(s, k, Admitting) && k in s.pl.callers && s.pl.callers[k] == P.Provisioning
    ensures Goes(s, ls, t, k) && Prepared(s, t, k) && t.calls[k].region.Some?
  {
    var r := Beyond(s.pl.regions.Keys);
    ls, t := RegionReady(s, k, P.Provision(k, r));
  }

  lemma EnteredView(v: View)
    requires CallOk(v) && v.call.pc == Entered
    ensures v.point == None
  {
    assert RegionPart(v);
  }

  /** A call that has entered can prepare its request, through the pool as long as that is open. */
  lemma EnteredReady(s: State, k: CallId) returns (ls: Schedule, t: State)
    requires Inv(s) && At(s, k, Entered) && (Pooled(s, k) ==> !s.pl.closed)
    ensures Goes(s, ls, t, k) && Prepared(s, t, k)
    ensures t.calls[k].region.Some? <==> Pooled(s, k) || s.requiresMR
  {
    assert CallOk(ViewOf(s, k));
    EnteredView(ViewOf(s, k));
    if Pooled(s, k) {
      ls, t := PooledReady(s, k);
    } else if s.requiresMR {
      var r := Beyond(s.pl.regions.Keys);
      ls, t := RegionReady(s, k, P.Register(k, r, |s.calls[k].payload|));
    } else {
      t := Go(s, k, Ready);
      PrepareKeeps(s, NoRegion(k));
      PrepareLeads(s, NoRegion(k), t);
      Stays(t, k);
      ls := First(s, Prepare(NoRegion(k)), t, [], t, k);
    }
  }

  lemma PooledReady(s: State, k: CallId) returns (ls: Schedule, t: State)
    requires Inv(s) && At(s, k, Entered) && Pooled(s, k) && !s.pl.closed && k !in s.pl.callers
    ensures Goes(s, ls, t, k) && Prepared(s, t, k) && t.calls[k].region.Some?
  {
    var s1 := Go(Pool(s, P.Admit(k)), k, Admitting);
    AdmitKeeps(s, k);
    PrepareLeads(s, Admit(k), s1);
    ls, t := AdmittingReady(s1, k);
    ls := First(s, Prepare(Admit(k)), s1, ls, t, k);
  }

  // ---------------------------------------------------------------- to an error

  /** The call has returned an error, and nothing else of it has changed. */
  ghost predicate GaveUp(s: State, t: State, k: CallId)
    requires k in s.calls
  {
    && Inv(t) && t.disp == s.disp && t.closer == s.closer
    && t.calls == s.calls[k := s.calls[k].(pc := ClientProtocol.Failed)]
  }

  lemma FirstToFailed(s: State, l: Label, s1: State, rest: Schedule, t: State, k: CallId, pc: Pc)
      returns (ls: Schedule)
    requires Leads(s, l, s1) && Own(l, k) && Goes(s1, rest, t, k)
    requires k in s.calls && s1.calls == s.calls[k := s.calls[k].(pc := pc)] && s1.disp == s.disp
    requires s1.closer == s.closer && GaveUp(s1, t, k)
    ensures Goes(s, ls, t, k) && GaveUp(s, t, k)
  {
    ls := First(s, l, s1, rest, t, k);
  }

  lemma GivingBackFails(s: State, k: CallId) returns (ls: Schedule, t: State)
    requires Inv(s) && At(s, k, GivingBack)
    ensures Goes(s, ls, t, k) && GaveUp(s, t, k)
  {
    var s1;
    ls, s1 := GivenBack(s, k);
    t := Go(s1, k, ClientProtocol.Failed);
    UndoKeeps(s1, EndFail(k));
    UndoLeads(s1, EndFail(k), t);
    Stays(t, k);
    var last := First(s1, Undo(EndFail(k)), t, [], t, k);
    Both(s, ls, s1, last, t, k);
    ls := ls + last;
  }

  /** On an error path a region is still in hand until it is given back. */
  lemma ReturnableView(v: View)
    requires CallOk(v) && (v.call.pc == Failing || v.call.pc == Undoing) && v.call.region.Some?
    ensures v.point == Some(P.Using(v.call.region.value)) && v.held.Some?
  {
    assert RegionPart(v) && OpPart(v) && CtxPart(v);
  }

  lemma GiveBackStep(s: State, k: CallId) returns (t: State)
    requires Inv(s) && k in s.calls
    requires (At(s, k, Failing) && k !in s.cx.ctxs)
             || (At(s, k, Undoing) && k in s.cx.ctxs && s.cx.ctxs[k].stage == C.Freed)
    ensures Leads(s, Undo(GiveBack(k)), t) && Inv(t) && t.disp == s.disp && t.closer == s.closer
    ensures t.calls == s.calls[k := s.calls[k].(pc := GivingBack)]
  {
    assert CallOk(ViewOf(s, k));
    if s.calls[k].region.Some? { ReturnableView(ViewOf(s, k)); }
    t := Go(Released(s, k), k, GivingBack);
    GiveBackStepKeeps(s, k);
    GiveBackLeads(s, k);
  }

  lemma GiveBackLeads(s: State, k: CallId)
    requires k in s.calls && CanRelease(s, k)
    requires (At(s, k, Failing) && k !in s.cx.ctxs)
             || (At(s, k, Undoing) && k in s.cx.ctxs && s.cx.ctxs[k].stage == C.Freed)
    ensures var t := Go(Released(s, k), k, GivingBack);
            && Leads(s, Undo(GiveBack(k)), t) && t.disp == s.disp && t.closer == s.closer
            && t.calls == s.calls[k := s.calls[k].(pc := GivingBack)]
  {
    UndoLeads(s, GiveBack(k), Go(Released(s, k), k, GivingBack));
  }

  lemma UndoingFails(s: State, k: CallId) returns (ls: Schedule, t: State)
    requires Inv(s) && At(s, k, Undoing) && Releaser(s, k)
    ensures Goes(s, ls, t, k) && GaveUp(s, t, k)
  {
    var s1, more;
    ls, s1 := ReleaseRuns(s, k);
    more, t := ReleasedFails(s1, k);
    Both(s, ls, s1, more, t, k);
    ls := ls + more;
  }

  /** The context is gone, or there was none. */
  lemma ReleasedFails(s: State, k: CallId) returns (ls: Schedule, t: State)
    requires Inv(s) && k in s.calls
    requires (At(s, k, Failing) && k !in s.cx.ctxs)
             || (At(s, k, Undoing) && k in s.cx.ctxs && s.cx.ctxs[k].stage == C.Freed)
    ensures Goes(s, ls, t, k) && GaveUp(s, t, k)
  {
    var s1 := GiveBackStep(s, k);
    ls, t := GivingBackFails(s1, k);
    ls := FirstToFailed(s, Undo(GiveBack(k)), s1, ls, t, k, GivingBack);
  }

  lemma FailingView(v: View)
    requires CallOk(v) && (v.call.pc == Failing || v.call.pc == Injected) && v.ctx.Some?
    ensures v.ctx.value.stage == C.Open
  {
    assert CtxPart(v);
  }

  lemma SwapStep(s: State, k: CallId, pc: Pc) returns (t: State)
    requires Inv(s) && k in s.calls && k in s.cx.ctxs
    requires (At(s, k, Failing) && pc == Undoing) || (At(s, k, Injected) && pc == InjectUndoing)
    ensures Leads(s, Undo(SwapRelease(k)), t) && Inv(t) && t.disp == s.disp && t.closer == s.closer && Releaser(t, k)
    ensures t.calls == s.calls[k := s.calls[k].(pc := pc)]
  {
    assert CallOk(ViewOf(s, k));
    FailingView(ViewOf(s, k));
    t := Go(Ctx(s, C.SwapRelease(k)), k, pc);
    SwapReleaseKeeps(s, k, pc);
    SwapReleaseLeads(s, k, pc);
  }

  lemma SwapReleaseLeads(s: State, k: CallId, pc: Pc)
    requires k in s.calls && k in s.cx.ctxs && s.cx.ctxs[k].stage == C.Open
    requires (At(s, k, Failing) && pc == Undoing) || (At(s, k, Injected) && pc == InjectUndoing)
    ensures var t := Go(Ctx(s, C.SwapRelease(k)), k, pc);
            Leads(s, Undo(SwapRelease(k)), t) && Releaser(t, k)
  {
    UndoLeads(s, SwapRelease(k), Go(Ctx(s, C.SwapRelease(k)), k, pc));
  }

  lemma FailingFails(s: State, k: CallId) returns (ls: Schedule, t: State)
    requires Inv(s) && At(s, k, Failing)
    ensures Goes(s, ls, t, k) && GaveUp(s, t, k)
  {
    if k !in s.cx.ctxs {
      ls, t := ReleasedFails(s, k);
      return;
    }
    var s1 := SwapStep(s, k, Undoing);
    ls, t := UndoingFails(s1, k);
    ls := FirstToFailed(s, Undo(SwapRelease(k)), s1, ls, t, k, Undoing);
  }

  /** At the places where something can go wrong the call can give up. */
  lemma CallFails(s: State, k: CallId) returns (ls: Schedule, t: State)
    requires Inv(s)
    requires At(s, k, Entered) || At(s, k, Ready) || At(s, k, Registered) || At(s, k, ClientProtocol.Staged)
    ensures Goes(s, ls, t, k) && GaveUp(s, t, k)
  {
    var s1 := Go(s, k, Failing);
    UndoKeeps(s, Fail(k));
    UndoLeads(s, Fail(k), s1);
    ls, t := FailingFails(s1, k);
    ls := FirstToFailed(s, Undo(Fail(k)), s1, ls, t, k, Failing);
  }

  // ---------------------------------------------------------------- to an injected message

  /** The message went by inject, the operation is complete without error, and the call has returned its future. */
  ghost predicate WentByInject(s: State, t: State, k: CallId)
    requires k in s.calls
  {
    && Inv(t) && t.disp == s.disp && t.closer == s.closer
    && t.calls == s.calls[k := Resulting(s.calls[k], false).(pc := InjectReturned, op := Done(false))]
  }

  lemma FirstToInjected(s: State, l: Label, s1: State, rest: Schedule, t: State, k: CallId, pc: Pc)
      returns (ls: Schedule)
    requires Leads(s, l, s1) && Own(l, k) && Goes(s1, rest, t, k)
    requires k in s.calls && s1.calls == s.calls[k := s.calls[k].(pc := pc)] && s1.disp == s.disp
    requires s1.closer == s.closer && WentByInject(s1, t, k)
    ensures Goes(s, ls, t, k) && WentByInject(s, t, k)
  {
    ls := First(s, l, s1, rest, t, k);
    SameEnd(s, s1, t, k, pc);
  }

  lemma SameEnd(s: State, s1: State, t: State, k: CallId, pc: Pc)
    requires k in s.calls && s1.calls == s.calls[k := s.calls[k].(pc := pc)] && s1.disp == s.disp
    requires s1.closer == s.closer && WentByInject(s1, t, k)
    ensures WentByInject(s, t, k)
  {
    assert Resulting(s1.calls[k], false).(pc := InjectReturned, op := Done(false))
        == Resulting(s.calls[k], false).(pc := InjectReturned, op := Done(false));
  }

  lemma InjectCountedView(v: View)
    requires CallOk(v) && v.call.pc == InjectCounted
    ensures v.role == NoRole && v.call.op != Pending && !v.call.op.failed && v.call.length == Some(v.call.size)
  {
    assert CtxPart(v) && OpPart(v) && DataPart(v);
  }

  lemma InjectReturnStep(s: State, k: CallId) returns (t: State)
    requires Inv(s) && At(s, k, InjectCounted) && s.calls[k].op.Done?
    ensures Leads(s, Undo(InjectReturn(k)), t) && Inv(t) && t.disp == s.disp && t.closer == s.closer
    ensures t.calls == s.calls[k := s.calls[k].(pc := InjectReturned)]
  {
    t := Go(s, k, InjectReturned);
    UndoKeeps(s, InjectReturn(k));
    UndoLeads(s, InjectReturn(k), t);
  }

  lemma InjectCompletes(s: State, k: CallId) returns (ls: Schedule, t: State)
    requires Inv(s) && At(s, k, InjectCounted)
    ensures Goes(s, ls, t, k) && Inv(t) && t.disp == s.disp && t.closer == s.closer
    ensures t.calls == s.calls[k := Resulting(s.calls[k], false).(op := Done(false))]
  {
    assert CallOk(ViewOf(s, k));
    InjectCountedView(ViewOf(s, k));
    if s.calls[k].op.Done? {
      Stays(s, k);
      return [], s;
    }
    ls, t := CompletionFinishes(s, k);
  }

  lemma InjectCountedReturns(s: State, k: CallId) returns (ls: Schedule, t: State)
    requires Inv(s) && At(s, k, InjectCounted)
    ensures Goes(s, ls, t, k) && WentByInject(s, t, k)
  {
    var s1;
    ls, s1 := InjectCompletes(s, k);
    t := InjectReturnStep(s1, k);
    Stays(t, k);
    var last := First(s1, Undo(InjectReturn(k)), t, [], t, k);
    Both(s, ls, s1, last, t, k);
    ls := ls + last;
  }

  lemma InjectPostedReturns(s: State, k: CallId) returns (ls: Schedule, t: State)
    requires Inv(s) && At(s, k, InjectPosted)
    ensures Goes(s, ls, t, k) && WentByInject(s, t, k)
  {
    var s1 := Set(s, k, Resulting(s.calls[k], false).(pc := InjectCounted));
    InjectCompleteKeeps(s, k);
    UndoLeads(s, InjectComplete(k), s1);
    ls, t := InjectCountedReturns(s1, k);
    ls := First(s, Undo(InjectComplete(k)), s1, ls, t, k);
  }

  lemma InjectCountStep(s: State, k: CallId) returns (t: State)
    requires Inv(s) && At(s, k, InjectUndoing) && k in s.cx.ctxs && s.cx.ctxs[k].stage == C.Freed
    ensures Leads(s, Undo(InjectCount(k)), t) && Inv(t) && t.disp == s.disp && t.closer == s.closer
    ensures t.calls == s.calls[k := s.calls[k].(pc := InjectPosted)]
  {
    t := DoUndo(s, InjectCount(k));
    InjectCountStepKeeps(s, k);
    InjectCountLeads(s, k);
  }

  lemma InjectCountLeads(s: State, k: CallId)
    requires At(s, k, InjectUndoing) && k in s.cx.ctxs && s.cx.ctxs[k].stage == C.Freed
    ensures var t := DoUndo(s, InjectCount(k));
            && Leads(s, Undo(InjectCount(k)), t) && t.disp == s.disp && t.closer == s.closer
            && t.calls == s.calls[k := s.calls[k].(pc := InjectPosted)]
  {
    UndoLeads(s, InjectCount(k), DoUndo(s, InjectCount(k)));
  }

  lemma InjectUndoingReturns(s: State, k: CallId) returns (ls: Schedule, t: State)
    requires Inv(s) && At(s, k, InjectUndoing) && Releaser(s, k)
    ensures Goes(s, ls, t, k) && WentByInject(s, t, k)
  {
    var s1, more;
    ls, s1 := ReleaseRuns(s, k);
    var s2 := InjectCountStep(s1, k);
    more, t := InjectPostedReturns(s2, k);
    more := FirstToInjected(s1, Undo(InjectCount(k)), s2, more, t, k, InjectPosted);
    Both(s, ls, s1, more, t, k);
    ls := ls + more;
  }

  lemma InjectedReturns(s: State, k: CallId) returns (ls: Schedule, t: State)
    requires Inv(s) && At(s, k, Injected) && k in s.cx.ctxs
    ensures Goes(s, ls, t, k) && WentByInject(s, t, k)
  {
    var s1 := SwapStep(s, k, InjectUndoing);
    ls, t := InjectUndoingReturns(s1, k);
    ls := FirstToInjected(s, Undo(SwapRelease(k)), s1, ls, t, k, InjectUndoing);
  }

  lemma SendableView(v: View)
    requires CallOk(v) && v.call.pc == Registered && v.call.kind == Send
    ensures Source(v).Some? && v.ctx.Some?
  {
    assert CtxPart(v) && RegionPart(v);
  }

  lemma InjectStep(s: State, k: CallId) returns (t: State)
    requires Inv(s) && At(s, k, Registered) && s.calls[k].kind == Send && |s.calls[k].payload| <= s.injectLimit
    ensures Leads(s, Post(Inject(k)), t) && Inv(t) && t.disp == s.disp && t.closer == s.closer && k in t.cx.ctxs
    ensures t.calls == s.calls[k := s.calls[k].(pc := Injected)]
  {
    assert CallOk(ViewOf(s, k));
    SendableView(ViewOf(s, k));
    t := Go(DoCapture(s, k), k, Injected);
    InjectKeeps(s, k);
    PostLeads(s, Inject(k), t);
  }

  lemma RegisteredInjects(s: State, k: CallId) returns (ls: Schedule, t: State)
    requires Inv(s) && At(s, k, Registered) && s.calls[k].kind == Send && |s.calls[k].payload| <= s.injectLimit
    ensures Goes(s, ls, t, k) && WentByInject(s, t, k)
  {
    var s1 := InjectStep(s, k);
    ls, t := InjectedReturns(s1, k);
    ls := FirstToInjected(s, Post(Inject(k)), s1, ls, t, k, Injected);
  }
}
