/** Single steps of the client on known states, from which runs are put together. */
module ClientSteps {
  import opened Basics
  import C = ContextProtocol
  import P = PoolProtocol
  import opened ClientProtocol
  import opened ClientTheorems

  /** Where a step leads, if it is possible. */
  ghost function Outcome(s: State, l: Label): Option<State> {
    if Enabled(s, l) then Some(Step(s, l)) else None
  }

  ghost predicate Leads(s: State, l: Label, t: State) {
    Outcome(s, l) == Some(t)
  }

  lemma ShutLeads(s: State, l: ShutStep, t: State)
    requires CanShut(s, l) && DoShut(s, l) == t
    ensures Leads(s, Shut(l), t)
  {
  }

  lemma ExitLeads(s: State, t: State)
    requires s.disp == Polling && s.stops > 0 && t == s.(disp := Exited)
    ensures Leads(s, Dispatch(Exit), t)
  {
  }

  /** A step of the dispatcher's release. */
  lemma ReleaseLeads(s: State, k: CallId, c: C.Label, cx: C.State, t: State)
    requires ReleaseStep(k, c) && s.disp.Releasing? && s.disp.k == k && C.Enabled(s.cx, c) && C.Step(s.cx, c) == cx
    requires t == s.(cx := cx)
    ensures Leads(s, Undo(CtxStep(k, c)), t)
  {
  }

  lemma EnsureLeads(s: State, k: CallId, a: Addr, cx: C.State, t: State)
    requires At(s, k, Registered) && s.calls[k].region == None && a != NIL
    requires C.Enabled(s.cx, C.Ensure(k, |s.calls[k].payload|, a))
             && C.Step(s.cx, C.Ensure(k, |s.calls[k].payload|, a)) == cx
    requires t == s.(cx := cx, calls := s.calls[k := s.calls[k].(pc := Buffered)])
    ensures Leads(s, Post(Ensure(k, a)), t)
  {
  }

  lemma StageLeads(s: State, k: CallId, l: C.Label, cx: C.State, t: State)
    requires k in s.calls && (s.calls[k].pc == Buffered || (s.calls[k].pc == Registered && s.calls[k].region.Some?))
    requires Staging(s, k) == Some(l) && C.Enabled(s.cx, l) && C.Step(s.cx, l) == cx
    requires t == s.(cx := cx, calls := s.calls[k := s.calls[k].(pc := Staged)])
    ensures Leads(s, Post(Stage(k)), t)
  {
  }

  lemma DropLeads(s: State, k: CallId, failed: bool, t: State)
    requires s.disp == Releasing(k, failed) && k in s.calls && s.calls[k].pc != Returned
    requires k in s.cx.ctxs && s.cx.ctxs[k].stage == C.Freed
    requires t == s.(calls := s.calls[k := s.calls[k].(dropped := true)], disp := Polling)
    ensures Leads(s, Dispatch(LoadValue(k)), t)
  {
  }

  lemma LoadLeads(s: State, k: CallId, failed: bool, t: State)
    requires s.disp == Releasing(k, failed) && At(s, k, Returned) && k in s.cx.ctxs && s.cx.ctxs[k].stage == C.Freed
    requires t == s.(disp := Storing(k, failed))
    ensures Leads(s, Dispatch(LoadValue(k)), t)
  {
  }

  lemma StoreResultLeads(s: State, k: CallId, failed: bool, t: State)
    requires s.disp == Storing(k, failed) && k in s.calls
    requires t.calls == s.calls[k := Resulting(s.calls[k], failed)] && t == s.(calls := t.calls, disp := Completing(k))
    ensures Leads(s, Dispatch(StoreResult(k)), t)
  {
  }

  lemma TallyLeads(s: State, k: CallId, failed: bool, t: State)
    requires s.disp == Completing(k) && k in s.calls && s.calls[k].kind == Receive && s.calls[k].op == Stored(failed)
    requires t == s.(calls := s.calls[k := s.calls[k].(op := Tallied(failed))], receives := Emitted(s.receives, failed))
    ensures Leads(s, Dispatch(Tally(k)), t)
  {
  }

  lemma FreeLeads(s: State, k: CallId, failed: bool, r: P.RegionId, t: State)
    requires s.disp == Completing(k) && k in s.calls && s.calls[k].op == Tallied(failed) && s.calls[k].region.Some?
    requires !Pooled(s, k) && k in s.pl.callers && s.pl.callers[k] == P.Using(r)
    requires t.pl.callers == s.pl.callers[k := P.Closing(r)]
    requires t.calls == s.calls[k := s.calls[k].(op := Freeing(failed))]
    requires t == s.(pl := s.pl.(callers := t.pl.callers), calls := t.calls)
    ensures Leads(s, Dispatch(Free(k)), t)
  {
    assert P.Step(s.pl, P.CloseOwn(k)) == t.pl;
  }

  lemma CloseLeads(s: State, k: CallId, r: P.RegionId, t: State)
    requires k in s.calls && s.calls[k].op.Freeing? && k in s.pl.callers && s.pl.callers[k] == P.Closing(r)
             && r in s.pl.regions
    requires t.pl.callers == s.pl.callers - {k} && t.pl.regions == s.pl.regions[r := P.Region([], false)]
    requires t == s.(pl := s.pl.(callers := t.pl.callers, regions := t.pl.regions))
    ensures Leads(s, Undo(PoolStep(k, P.CloseRegion(k, true))), t)
  {
    assert P.Step(s.pl, P.CloseRegion(k, true)) == t.pl;
  }

  lemma FinishLeads(s: State, k: CallId, failed: bool, t: State)
    requires s.disp == Completing(k) && k in s.calls && s.calls[k].op == Freeing(failed) && k !in s.pl.callers
    requires t.calls == s.calls[k := s.calls[k].(op := Done(failed))] && t == s.(calls := t.calls, disp := Polling)
    ensures Leads(s, Dispatch(Finish(k)), t)
  {
  }

  lemma DeliverLeads(s: State, k: CallId, msg: seq<Byte>, from: Option<CallId>, pl: P.State, t: State)
    requires k in s.calls && s.calls[k].kind == Receive && InFlight(s, k) && s.calls[k].got == None
             && s.calls[k].region.Some?
    requires SentBy(s, msg, from) && |msg| <= |s.calls[k].payload|
    requires P.Enabled(s.pl, P.Write(k, msg)) && P.Step(s.pl, P.Write(k, msg)) == pl
    requires t == s.(pl := pl, calls := s.calls[k := s.calls[k].(got := Some(msg), from := from)])
    ensures Leads(s, Net(Deliver(k, msg, from)), t)
  {
  }

  lemma InjectLeads(s: State, k: CallId, bytes: seq<Byte>, t: State)
    requires At(s, k, Registered) && s.calls[k].kind == Send && |s.calls[k].payload| <= s.injectLimit
    requires Source(ViewOf(s, k)) == Some(bytes)
    requires t == s.(wire := s.wire[k := bytes], calls := s.calls[k := s.calls[k].(pc := Injected)])
    ensures Leads(s, Post(Inject(k)), t)
  {
  }

  lemma CountLeads(s: State, k: CallId, t: State)
    requires At(s, k, Accepted)
    requires t == CountPost(s.(calls := s.calls[k := s.calls[k].(pc := Counted)]), s.calls[k].kind)
    ensures Leads(s, Post(Count(k)), t)
  {
  }

  lemma AttachLeads(s: State, k: CallId, t: State)
    requires At(s, k, Counted)
    requires t == s.(calls := s.calls[k := s.calls[k].(pc := Returned)])
    ensures Leads(s, Post(Attach(k)), t)
  {
  }

  lemma GetRegionLeads(s: State, k: CallId, p: P.Label, pl: P.State, t: State)
    requires GetsRegion(s, k, p) && P.Enabled(s.pl, p) && P.Step(s.pl, p) == pl
    requires t == s.(pl := pl, calls := s.calls[k := s.calls[k].(pc := Filling, region := Fetched(s, p))])
    ensures Leads(s, Prepare(GetRegion(k, p)), t)
  {
  }

  lemma ContextLeads(s: State, k: CallId, a: Addr, cx: C.State, t: State)
    requires At(s, k, Ready) && C.Enabled(s.cx, C.Mint(k, a)) && C.Step(s.cx, C.Mint(k, a)) == cx
    requires t == s.(cx := cx, calls := s.calls[k := s.calls[k].(pc := Minting)])
    ensures Leads(s, Post(Mint(k, a)), t)
  {
  }

  lemma StoreLeads(s: State, k: CallId, cx: C.State, t: State)
    requires At(s, k, Minting) && C.Enabled(s.cx, C.Store(k)) && C.Step(s.cx, C.Store(k)) == cx
    requires t == s.(cx := cx, calls := s.calls[k := s.calls[k].(pc := Registered)])
    ensures Leads(s, Post(Store(k)), t)
  {
  }

  lemma AcceptLeads(s: State, k: CallId, cx: C.State, t: State)
    requires At(s, k, Staged) && C.Enabled(s.cx, C.Accept(k)) && C.Step(s.cx, C.Accept(k)) == cx
    requires t == s.(cx := cx, calls := s.calls[k := s.calls[k].(pc := Accepted)])
    ensures Leads(s, Post(Accept(k)), t)
  {
  }

  lemma ReadLeads(s: State, k: CallId, failed: bool, cx: C.State, t: State)
    requires s.disp == Polling && k in s.calls && (failed || ServedBy(s, k))
    requires C.Enabled(s.cx, C.ReadEntry(k)) && C.Step(s.cx, C.ReadEntry(k)) == cx
    requires t == s.(cx := cx, disp := Holding(k, failed))
    ensures Leads(s, Dispatch(ReadEntry(k, failed)), t)
  {
  }

  lemma LookupLeads(s: State, k: CallId, failed: bool, a: Addr, t: State)
    requires s.disp == Holding(k, failed) && k in s.cx.ctxs && s.cx.ctxs[k].entry == C.Read && s.cx.ctxs[k].ptr == a
    requires a in s.cx.registry && s.cx.registry[a] == k
    requires t.cx.registry == s.cx.registry - {a}
    requires t.cx.ctxs == s.cx.ctxs[k := s.cx.ctxs[k].(entry := C.Spent(Some(k)), loaded := true)]
    requires t == s.(cx := s.cx.(registry := t.cx.registry, ctxs := t.cx.ctxs), disp := Swapping(k, failed))
    ensures Leads(s, Dispatch(Lookup(k)), t)
  {
    assert C.Step(s.cx, C.Lookup(k)) == t.cx;
  }

  lemma FreeTokenLeads(s: State, k: CallId, a: Addr, t: State)
    requires s.disp.Releasing? && s.disp.k == k && k in s.cx.ctxs && s.cx.ctxs[k].stage == C.Unstaged
    requires s.cx.ctxs[k].ptr == a && a in s.cx.live
    requires t.cx.live == s.cx.live - {a} && t.cx.ctxs == s.cx.ctxs[k := s.cx.ctxs[k].(stage := C.Freed)]
    requires t == s.(cx := s.cx.(live := t.cx.live, ctxs := t.cx.ctxs))
    ensures Leads(s, Undo(CtxStep(k, C.FreeToken(k))), t)
  {
    assert C.Step(s.cx, C.FreeToken(k)) == t.cx;
  }

  lemma SwapLeads(s: State, k: CallId, failed: bool, cx: C.State, t: State)
    requires s.disp == Swapping(k, failed) && C.Enabled(s.cx, C.SwapResolve(k)) && C.Step(s.cx, C.SwapResolve(k)) == cx
    requires t == s.(cx := cx, disp := Releasing(k, failed))
    ensures Leads(s, Dispatch(SwapResolve(k)), t)
  {
  }

  /** Where a schedule leads, if it can be run. */
  ghost function End(s0: State, ls: Schedule): Option<State> {
    if Runnable(s0, ls) then Some(Exec(s0, ls)) else None
  }

  /** Appends one step to a run. */
  lemma Next(s0: State, ls: Schedule, s: State, l: Label, t: State) returns (more: Schedule)
    requires End(s0, ls) == Some(s) && Leads(s, l, t)
    ensures End(s0, more) == Some(t)
  {
    more := ls + [l];
    Append(s0, ls, l);
  }

  lemma {:induction false} Append(s0: State, ls: Schedule, l: Label)
    requires Runnable(s0, ls) && Enabled(Exec(s0, ls), l)
    ensures Runnable(s0, ls + [l]) && Exec(s0, ls + [l]) == Step(Exec(s0, ls), l)
    decreases ls
  {
    if ls == [] {
      assert ls + [l] == [l] && [l][1..] == [];
    } else {
      Append(Step(s0, ls[0]), ls[1..], l);
      assert (ls + [l])[1..] == ls[1..] + [l];
    }
  }
}
