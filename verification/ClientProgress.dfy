/** What the client can always still do: calls return, completions finish, the dispatcher and Close come to an end. */
module ClientProgress {
  import opened Basics
  import C = ContextProtocol
  import P = PoolProtocol
  import opened ClientProtocol
  import opened ClientInvariant
  import opened ClientPreservation
  import opened ClientTheorems
  import opened ClientSteps

  // ---------------------------------------------------------------- schedules of one call's own steps

  /** A step of the goroutine that runs call `k`, or of the dispatcher at work on it. */
  predicate Own(l: Label, k: CallId) {
    match l
    case Prepare(a) => a.k == k && !a.Begin?
    case Post(a) => a.k == k
    case Undo(a) => a.k == k
    case Dispatch(a) => !a.RecordError? && !a.Exit? && a.k == k
    case Net(_) => false
    case Shut(_) => false
  }

  /** A run of such steps from `s` to `t`. */
  ghost predicate Goes(s: State, ls: Schedule, t: State, k: CallId) {
    End(s, ls) == Some(t) && forall i :: 0 <= i < |ls| ==> Own(ls[i], k)
  }

  lemma Stays(s: State, k: CallId)
    ensures Goes(s, [], s, k)
  {
  }

  /** Puts a step in front. */
  lemma First(s: State, l: Label, t: State, rest: Schedule, u: State, k: CallId) returns (ls: Schedule)
    requires Leads(s, l, t) && Own(l, k) && Goes(t, rest, u, k)
    ensures Goes(s, ls, u, k)
  {
    ls := [l] + rest;
    assert ls[1..] == rest;
  }

  lemma Both(s: State, ls: Schedule, t: State, ms: Schedule, u: State, k: CallId)
    requires Goes(s, ls, t, k) && Goes(t, ms, u, k)
    ensures Goes(s, ls + ms, u, k)
  {
    EndOfBoth(s, ls, t, ms);
    assert forall i :: 0 <= i < |ls + ms| ==> (ls + ms)[i] == if i < |ls| then ls[i] else ms[i - |ls|];
  }

  lemma {:induction false} EndOfBoth(s: State, ls: Schedule, t: State, ms: Schedule)
    requires End(s, ls) == Some(t)
    ensures End(s, ls + ms) == End(t, ms)
    decreases |ls|
  {
    if ls == [] {
      assert [] + ms == ms;
    } else {
      EndOfBoth(Step(s, ls[0]), ls[1..], t, ms);
      assert (ls + ms)[1..] == ls[1..] + ms;
    }
  }

  lemma DispatchLeads(s: State, l: DispatchStep, t: State)
    requires CanDispatch(s, l) && DoDispatch(s, l) == t
    ensures Leads(s, Dispatch(l), t)
  {
  }

  lemma UndoLeads(s: State, l: UndoStep, t: State)
    requires CanUndo(s, l) && DoUndo(s, l) == t
    ensures Leads(s, Undo(l), t)
  {
  }

  // ---------------------------------------------------------------- giving a region back

  /** A release closure that has started is about to push the region or to close it. */
  lemma GivingView(v: View)
    requires CallOk(v) && (v.call.pc == GivingBack || v.call.op.Freeing?) && v.point.Some?
    ensures P.Hand(v.point.value).Some? && !v.point.value.Using?
  {
    assert RegionPart(v);
  }

  /** Either is possible. */
  lemma CanLeave(s: State, k: CallId)
    requires Inv(s) && k in s.calls && (s.calls[k].pc == GivingBack || s.calls[k].op.Freeing?) && k in s.pl.callers
    ensures P.Enabled(s.pl, P.Push(k)) || P.Enabled(s.pl, P.CloseRegion(k, true))
  {
    assert CallOk(ViewOf(s, k));
    GivingView(ViewOf(s, k));
    assert P.HandOk(s.pl, k);
  }

  /** One step of it: the region is given back, or it did not fit the channel and is closed next. */
  lemma GiveStep(s: State, k: CallId) returns (l: UndoStep, t: State)
    requires Inv(s) && k in s.calls && (s.calls[k].pc == GivingBack || s.calls[k].op.Freeing?) && k in s.pl.callers
    ensures l.PoolStep? && l.k == k && Leads(s, Undo(l), t) && Inv(t)
    ensures t == s.(pl := t.pl) && (k in t.pl.callers ==> s.pl.callers[k].Pushing? && t.pl.callers[k].Closing?)
  {
    CanLeave(s, k);
    var p := if P.Enabled(s.pl, P.Push(k)) then P.Push(k) else P.CloseRegion(k, true);
    l := PoolStep(k, p);
    t := Pool(s, p);
    PoolStepKeeps(s, k, p);
    PoolStepLeads(s, k, p);
  }

  lemma PoolStepLeads(s: State, k: CallId, p: P.Label)
    requires k in s.calls && (s.calls[k].pc == GivingBack || s.calls[k].op.Freeing?)
    requires (p == P.Push(k) || p == P.CloseRegion(k, true)) && P.Enabled(s.pl, p)
    ensures Leads(s, Undo(PoolStep(k, p)), Pool(s, p))
    ensures var t := Pool(s, p);
            t == s.(pl := t.pl) && (k in t.pl.callers ==> s.pl.callers[k].Pushing? && t.pl.callers[k].Closing?)
  {
    UndoLeads(s, PoolStep(k, p), Pool(s, p));
  }

  lemma GivenBack(s: State, k: CallId) returns (ls: Schedule, t: State)
    requires Inv(s) && k in s.calls && (s.calls[k].pc == GivingBack || s.calls[k].op.Freeing?)
    ensures Goes(s, ls, t, k) && Inv(t) && t == s.(pl := t.pl) && k !in t.pl.callers
    decreases if k !in s.pl.callers then 0 else if s.pl.callers[k].Closing? then 1 else 2
  {
    if k !in s.pl.callers {
      Stays(s, k);
      return [], s;
    }
    var l, s1 := GiveStep(s, k);
    ls, t := GivenBack(s1, k);
    ls := First(s, Undo(l), s1, ls, t, k);
  }

  // ---------------------------------------------------------------- operation.complete

  lemma TallyStep(s: State, k: CallId) returns (t: State)
    requires Inv(s) && Completer(s, k) && s.calls[k].op.Stored?
    ensures Leads(s, Dispatch(Tally(k)), t) && Inv(t) && t.disp == s.disp && t.cx == s.cx && t.closer == s.closer
    ensures t.calls == s.calls[k := s.calls[k].(op := Tallied(s.calls[k].op.failed))]
  {
    t := DoTally(s, k);
    TallyKeeps(s, k);
    DispatchLeads(s, Tally(k), t);
  }

  /** With a region it is still in hand; without one there is nothing to release. */
  lemma ReleasableView(v: View)
    requires CallOk(v) && v.call.op.Tallied?
    ensures v.call.region.Some? ==> v.point == Some(P.Using(v.call.region.value)) && v.held.Some?
  {
    assert RegionPart(v) && OpPart(v);
  }

  lemma FreeStep(s: State, k: CallId) returns (t: State)
    requires Inv(s) && Completer(s, k) && s.calls[k].op.Tallied?
    ensures Leads(s, Dispatch(Free(k)), t) && Inv(t) && t.disp == s.disp && t.cx == s.cx && t.closer == s.closer
    ensures t.calls == s.calls[k := s.calls[k].(op := Freeing(s.calls[k].op.failed))]
  {
    assert CallOk(ViewOf(s, k));
    ReleasableView(ViewOf(s, k));
    t := DoFree(s, k);
    FreeKeeps(s, k);
    DispatchLeads(s, Free(k), t);
  }

  lemma FinishStep(s: State, k: CallId) returns (t: State)
    requires Inv(s) && Completer(s, k) && s.calls[k].op.Freeing? && k !in s.pl.callers
    ensures Leads(s, Dispatch(Finish(k)), t) && Inv(t) && t.cx == s.cx && t.closer == s.closer
    ensures t.disp == if s.disp == Completing(k) then Polling else s.disp
    ensures t.calls == s.calls[k := s.calls[k].(op := Done(s.calls[k].op.failed))]
  {
    t := DoFinish(s, k);
    FinishKeeps(s, k);
    DispatchLeads(s, Finish(k), t);
  }

  predicate Underway(op: Op) {
    op.Stored? || op.Tallied? || op.Freeing?
  }

  /** The operation is complete with the flag that was stored, and whoever ran it goes on. */
  ghost predicate Finished(s: State, t: State, k: CallId)
    requires k in s.calls && Underway(s.calls[k].op)
  {
    && Inv(t) && t.cx == s.cx && t.closer == s.closer
    && t.calls == s.calls[k := s.calls[k].(op := Done(s.calls[k].op.failed))]
    && t.disp == if s.disp == Completing(k) then Polling else s.disp
  }

  /**
   A completion that has begun can always be finished by the steps of whoever runs it, the dispatcher or the sender of
   an injected message, with or without a region to give back; the result is the one that was stored.
   */
  lemma CompletionFinishes(s: State, k: CallId) returns (ls: Schedule, t: State)
    requires Inv(s) && Completer(s, k) && Underway(s.calls[k].op)
    ensures Goes(s, ls, t, k) && Finished(s, t, k)
  {
    match s.calls[k].op
    case Stored(_) =>
      var s1 := TallyStep(s, k);
      ls, t := TalliedFinishes(s1, k);
      ls := First(s, Dispatch(Tally(k)), s1, ls, t, k);
    case Tallied(_) => ls, t := TalliedFinishes(s, k);
    case Freeing(_) => ls, t := FreeingFinishes(s, k);
  }

  lemma TalliedFinishes(s: State, k: CallId) returns (ls: Schedule, t: State)
    requires Inv(s) && Completer(s, k) && s.calls[k].op.Tallied?
    ensures Goes(s, ls, t, k) && Finished(s, t, k)
  {
    var s1 := FreeStep(s, k);
    ls, t := FreeingFinishes(s1, k);
    ls := First(s, Dispatch(Free(k)), s1, ls, t, k);
  }

  lemma FreeingFinishes(s: State, k: CallId) returns (ls: Schedule, t: State)
    requires Inv(s) && Completer(s, k) && s.calls[k].op.Freeing?
    ensures Goes(s, ls, t, k) && Finished(s, t, k)
  {
    var s1;
    ls, s1 := GivenBack(s, k);
    t := FinishStep(s1, k);
    Stays(t, k);
    var last := First(s1, Dispatch(Finish(k)), t, [], t, k);
    Both(s, ls, s1, last, t, k);
    ls := ls + last;
  }

  // ---------------------------------------------------------------- the release of a context

  /** A release of the context of `k` has begun: on an error path, after an inject, or by the dispatcher. */
  predicate Releaser(s: State, k: CallId) {
    && k in s.calls && k in s.cx.ctxs && C.Rank(s.cx.ctxs[k].stage) >= 2
    && (At(s, k, Undoing) || At(s, k, InjectUndoing) || (s.disp.Releasing? && s.disp.k == k))
  }

  function ReleaseLabel(k: CallId, g: C.Stage): C.Label {
    match g
    case Claimed => C.Deregister(k)
    case Detached => C.RunCallbacks(k)
    case Called => C.CopyBack(k)
    case Copied => C.Unstage(k)
    case _ => C.FreeToken(k)
  }

  lemma StageGoesOn(s: C.State, k: CallId)
    requires k in s.ctxs && 2 <= C.Rank(s.ctxs[k].stage) < 7
    ensures var l := ReleaseLabel(k, s.ctxs[k].stage);
            && C.Enabled(s, l) && ReleaseStep(k, l) && k in C.Step(s, l).ctxs
            && C.Rank(C.Step(s, l).ctxs[k].stage) == C.Rank(s.ctxs[k].stage) + 1
  {
  }

  lemma ReleaseStepOn(s: State, k: CallId) returns (l: C.Label, t: State)
    requires Inv(s) && Releaser(s, k) && s.cx.ctxs[k].stage != C.Freed
    ensures Leads(s, Undo(CtxStep(k, l)), t) && Inv(t) && t == s.(cx := t.cx) && Releaser(t, k)
    ensures C.Rank(t.cx.ctxs[k].stage) == C.Rank(s.cx.ctxs[k].stage) + 1
  {
    StageGoesOn(s.cx, k);
    l := ReleaseLabel(k, s.cx.ctxs[k].stage);
    t := Ctx(s, l);
    CtxStepKeeps(s, k, l);
    CtxStepLeads(s, k, l);
  }

  lemma CtxStepLeads(s: State, k: CallId, l: C.Label)
    requires Releaser(s, k) && ReleaseStep(k, l) && C.Enabled(s.cx, l)
    ensures Leads(s, Undo(CtxStep(k, l)), Ctx(s, l))
  {
    UndoLeads(s, CtxStep(k, l), Ctx(s, l));
  }

  /** It can be run to the free of the token. */
  lemma ReleaseRuns(s: State, k: CallId) returns (ls: Schedule, t: State)
    requires Inv(s) && Releaser(s, k)
    ensures Goes(s, ls, t, k) && Inv(t) && t == s.(cx := t.cx) && Releaser(t, k) && t.cx.ctxs[k].stage == C.Freed
    decreases 7 - C.Rank(s.cx.ctxs[k].stage)
  {
    if s.cx.ctxs[k].stage == C.Freed {
      Stays(s, k);
      return [], s;
    }
    var l, s1 := ReleaseStepOn(s, k);
    ls, t := ReleaseRuns(s1, k);
    ls := First(s, Undo(CtxStep(k, l)), s1, ls, t, k);
  }

  // ---------------------------------------------------------------- the dispatcher

  /** The dispatcher is back at its queue; it has completed the operation of `k`, or dropped the entry. */
  ghost predicate Handled(s: State, t: State, k: CallId, failed: bool)
    requires k in s.calls
  {
    && Inv(t) && t.disp == Polling && t.closer == s.closer
    && t.calls == s.calls[k := if s.calls[k].pc == Returned then Resulting(s.calls[k], failed).(op := Done(failed))
                               else s.calls[k].(dropped := true)]
  }

  lemma StoringFinishes(s: State, k: CallId, failed: bool) returns (ls: Schedule, t: State)
    requires Inv(s) && s.disp == Storing(k, failed) && At(s, k, Returned)
    ensures Goes(s, ls, t, k) && Handled(s, t, k, failed)
  {
    var s1 := StoreStep(s, k, failed);
    ls, t := CompletionFinishes(s1, k);
    ls := First(s, Dispatch(StoreResult(k)), s1, ls, t, k);
  }

  lemma StoreStep(s: State, k: CallId, failed: bool) returns (t: State)
    requires Inv(s) && s.disp == Storing(k, failed) && k in s.calls
    ensures Leads(s, Dispatch(StoreResult(k)), t) && Inv(t) && t.closer == s.closer
    ensures t.calls == s.calls[k := Resulting(s.calls[k], failed)] && t.disp == Completing(k)
  {
    t := Set(s, k, Resulting(s.calls[k], failed)).(disp := Completing(k));
    StoreResultKeeps(s, k, failed);
    DispatchLeads(s, StoreResult(k), t);
  }

  lemma LoadingFinishes(s: State, k: CallId, failed: bool) returns (ls: Schedule, t: State)
    requires Inv(s) && s.disp == Releasing(k, failed) && k in s.calls && k in s.cx.ctxs && s.cx.ctxs[k].stage == C.Freed
    ensures Goes(s, ls, t, k) && Handled(s, t, k, failed)
  {
    var s1 := DoLoadValue(s, k, failed);
    LoadValueKeeps(s, k, failed);
    DispatchLeads(s, LoadValue(k), s1);
    if s.calls[k].pc == Returned {
      ls, t := StoringFinishes(s1, k, failed);
    } else {
      Stays(s1, k);
      ls, t := [], s1;
    }
    ls := First(s, Dispatch(LoadValue(k)), s1, ls, t, k);
  }

  lemma ReleasingView(v: View)
    requires CallOk(v) && v.role.Releases?
    ensures v.ctx.Some? && C.Rank(v.ctx.value.stage) >= 2
  {
    assert OpPart(v);
  }

  lemma ReleasingFinishes(s: State, k: CallId, failed: bool) returns (ls: Schedule, t: State)
    requires Inv(s) && s.disp == Releasing(k, failed) && k in s.calls
    ensures Goes(s, ls, t, k) && Handled(s, t, k, failed)
  {
    assert CallOk(ViewOf(s, k));
    ReleasingView(ViewOf(s, k));
    var s1, more;
    ls, s1 := ReleaseRuns(s, k);
    more, t := LoadingFinishes(s1, k, failed);
    Both(s, ls, s1, more, t, k);
    ls := ls + more;
  }

  lemma SwappingView(v: View)
    requires CallOk(v) && v.role.Swaps?
    ensures v.ctx.Some? && v.ctx.value.loaded
  {
    assert OpPart(v);
  }

  lemma SwappingFinishes(s: State, k: CallId, failed: bool) returns (ls: Schedule, t: State)
    requires Inv(s) && s.disp == Swapping(k, failed) && k in s.calls
    ensures Goes(s, ls, t, k) && Handled(s, t, k, failed)
  {
    assert CallOk(ViewOf(s, k));
    SwappingView(ViewOf(s, k));
    var s1 := Ctx(s, C.SwapResolve(k)).(disp := Releasing(k, failed));
    SwapResolveKeeps(s, k, failed);
    DispatchLeads(s, SwapResolve(k), s1);
    ls, t := ReleasingFinishes(s1, k, failed);
    ls := First(s, Dispatch(SwapResolve(k)), s1, ls, t, k);
  }

  lemma HoldingView(v: View)
    requires CallOk(v) && v.role.Reads?
    ensures v.ctx.Some? && v.ctx.value.entry == C.Read
  {
    assert OpPart(v);
  }

  lemma HoldingFinishes(s: State, k: CallId, failed: bool) returns (ls: Schedule, t: State)
    requires Inv(s) && s.disp == Holding(k, failed) && k in s.calls
    ensures Goes(s, ls, t, k) && Handled(s, t, k, failed)
  {
    assert CallOk(ViewOf(s, k));
    HoldingView(ViewOf(s, k));
    var s1 := DoLookup(s, k, failed);
    LookupFindsOwn(s, k);
    LookupEffect(s, k, failed);
    LookupKeeps(s, k, failed);
    DispatchLeads(s, Lookup(k), s1);
    ls, t := SwappingFinishes(s1, k, failed);
    ls := First(s, Dispatch(Lookup(k)), s1, ls, t, k);
  }

  /** The entry of a posted call that is still in the queue. */
  lemma EntryFinishes(s: State, k: CallId, failed: bool) returns (ls: Schedule, t: State)
    requires Inv(s) && s.disp == Polling && k in s.calls && InFlight(s, k) && (failed || ServedBy(s, k))
    ensures Goes(s, ls, t, k) && Handled(s, t, k, failed)
  {
    var s1 := Ctx(s, C.ReadEntry(k)).(disp := Holding(k, failed));
    ReadEntryKeeps(s, k, failed);
    DispatchLeads(s, ReadEntry(k, failed), s1);
    ls, t := HoldingFinishes(s1, k, failed);
    ls := First(s, Dispatch(ReadEntry(k, failed)), s1, ls, t, k);
  }
}
