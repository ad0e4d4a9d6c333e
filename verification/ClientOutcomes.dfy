/** Each call's completion and release happen once, or never; and what becomes of an orphan. */
module ClientOutcomes {
  import opened Basics
  import C = ContextProtocol
  import P = PoolProtocol
  import opened ClientProtocol
  import opened ClientInvariant
  import opened ClientPreservation
  import opened ClientTheorems

  /** Things that may happen once to a call. */
  datatype Milestone =
    | Told        // the counter is updated and the handlers are started
    | GivenBack   // the release closure has started, from an error path or from the completion
    | Settled     // `done` is closed
    | Attached    // the operation is the value of its context

  predicate Reached(c: Call, m: Milestone) {
    match m
    case Told => OpRank(c.op) >= 2
    case GivenBack => ReleaseStarted(c)
    case Settled => OpRank(c.op) >= 4
    case Attached => c.pc == Returned
  }

  predicate Marks(l: Label, m: Milestone, k: CallId) {
    match m
    case Told => l == Dispatch(Tally(k))
    case GivenBack => l == Undo(GiveBack(k)) || l == Dispatch(Free(k))
    case Settled => l == Dispatch(Finish(k))
    case Attached => l == Post(Attach(k))
  }

  /** How often a schedule passes the milestone of a call. */
  function Passes(ls: Schedule, m: Milestone, k: CallId): nat {
    if ls == [] then 0 else (if Marks(ls[0], m, k) then 1 else 0) + Passes(ls[1..], m, k)
  }

  predicate Passed(calls: map<CallId, Call>, m: Milestone, k: CallId) {
    k in calls && Reached(calls[k], m)
  }

  /** A marking step passes a milestone that was not reached, and only a marking step does. */
  predicate Faithful(s: State, l: Label, n: Option<(CallId, Call)>, m: Milestone, k: CallId) {
    var before := Passed(s.calls, m, k);
    var after := Passed(After(s, n), m, k);
    if Marks(l, m, k) then !before && after else before <==> after
  }

  lemma PrepareIsFaithful(s: State, a: PrepareStep, m: Milestone, k: CallId)
    requires CanPrepare(s, a)
    ensures Faithful(s, Prepare(a), MovedByPrepare(s, a), m, k)
  {
  }

  lemma PostIsFaithful(s: State, a: PostStep, m: Milestone, k: CallId)
    requires CanPost(s, a)
    ensures Faithful(s, Post(a), MovedByPost(s, a), m, k)
  {
  }

  lemma UndoIsFaithful(s: State, a: UndoStep, m: Milestone, k: CallId)
    requires CanUndo(s, a)
    requires a.k in s.calls && (a.InjectComplete? || s.calls[a.k].pc == Failing || s.calls[a.k].pc == Undoing) ==>
               s.calls[a.k].op == Pending
    ensures Faithful(s, Undo(a), MovedByUndo(s, a), m, k)
  {
  }

  lemma DispatchIsFaithful(s: State, a: DispatchStep, m: Milestone, k: CallId)
    requires CanDispatch(s, a)
    requires a.StoreResult? && a.k in s.calls ==> s.calls[a.k].op == Pending
    requires a.Free? && a.k in s.calls ==> s.calls[a.k].pc != GivingBack && s.calls[a.k].pc != Failed
    ensures Faithful(s, Dispatch(a), MovedByDispatch(s, a), m, k)
  {
  }

  lemma NotFailed(v: View)
    requires CallOk(v) && v.call.op.Tallied?
    ensures v.call.pc != GivingBack && v.call.pc != Failed
  {
    assert OpPart(v) && CtxPart(v);
  }

  lemma UndoStepIsFaithful(s: State, a: UndoStep, m: Milestone, k: CallId)
    requires CanUndo(s, a) && a.k in s.calls && CallOk(ViewOf(s, a.k))
    ensures Faithful(s, Undo(a), MovedByUndo(s, a), m, k)
  {
    StillPending(ViewOf(s, a.k));
    UndoIsFaithful(s, a, m, k);
  }

  lemma DispatchStepIsFaithful(s: State, a: DispatchStep, m: Milestone, k: CallId)
    requires CanDispatch(s, a)
    requires a.StoreResult? || a.Free? ==> a.k in s.calls && CallOk(ViewOf(s, a.k))
    ensures Faithful(s, Dispatch(a), MovedByDispatch(s, a), m, k)
  {
    if a.StoreResult? { StillPending(ViewOf(s, a.k)); }
    if a.Free? { NotFailed(ViewOf(s, a.k)); }
    DispatchIsFaithful(s, a, m, k);
  }

  lemma UndoSubject(s: State, a: UndoStep)
    requires CanUndo(s, a) && s.cx.ctxs.Keys <= s.calls.Keys && DispOk(s)
    ensures a.k in s.calls
  {
  }

  lemma StepIsFaithful(s: State, l: Label, m: Milestone, k: CallId)
    requires Inv(s) && Enabled(s, l)
    ensures Faithful(s, l, Moved(s, l), m, k)
  {
    match l
    case Prepare(a) => PrepareIsFaithful(s, a, m, k);
    case Post(a) => PostIsFaithful(s, a, m, k);
    case Undo(a) =>
      UndoSubject(s, a);
      assert CallOk(ViewOf(s, a.k));
      UndoStepIsFaithful(s, a, m, k);
    case Dispatch(a) =>
      if a.StoreResult? || a.Free? { assert CallOk(ViewOf(s, a.k)); }
      DispatchStepIsFaithful(s, a, m, k);
    case _ =>
  }

  lemma StepPasses(s: State, l: Label, m: Milestone, k: CallId)
    requires Inv(s) && Enabled(s, l)
    ensures Marks(l, m, k) ==> !Passed(s.calls, m, k) && Passed(Step(s, l).calls, m, k)
    ensures !Marks(l, m, k) ==> (Passed(s.calls, m, k) <==> Passed(Step(s, l).calls, m, k))
  {
    StepIsFaithful(s, l, m, k);
    StepMovesOne(s, l);
  }

  lemma {:induction false} PassesOnce(s: State, ls: Schedule, m: Milestone, k: CallId)
    requires Inv(s) && Runnable(s, ls)
    ensures Passes(ls, m, k) + (if Passed(s.calls, m, k) then 1 else 0)
              == if Passed(Exec(s, ls).calls, m, k) then 1 else 0
    decreases ls
  {
    if ls != [] {
      StepPasses(s, ls[0], m, k);
      StepKeepsInv(s, ls[0]);
      PassesOnce(Step(s, ls[0]), ls[1..], m, k);
    }
  }

  /**
   In every run the handlers of a call are told once, its region is given back once and its future is
   settled once, exactly when the call has come so far.  In particular the region is released by the error
   path or by the completion and never by both.
   */
  lemma MilestonesExactlyOnce(s: State, ls: Schedule, k: CallId)
    requires Start(s) && Runnable(s, ls) && k in Exec(s, ls).calls
    ensures var c := Exec(s, ls).calls[k];
            && Passes(ls, Told, k) == (if c.op.Tallied? || c.op.Freeing? || c.op.Done? then 1 else 0)
            && Passes(ls, GivenBack, k) == (if ReleaseStarted(c) then 1 else 0)
            && Passes(ls, Settled, k) == (if c.op.Done? then 1 else 0)
  {
    RunKeepsInv(s, []);
    assert Exec(s, []) == s;
    PassesOnce(s, ls, Told, k);
    PassesOnce(s, ls, GivenBack, k);
    PassesOnce(s, ls, Settled, k);
  }

  /**
   When a call has failed or its future is settled, its region has been given back once and nobody is using it for the
   call.
   */
  lemma EndedCallGaveBack(s: State, ls: Schedule, k: CallId)
    requires Start(s) && Runnable(s, ls) && k in Exec(s, ls).calls
    requires Exec(s, ls).calls[k].pc == Failed || Exec(s, ls).calls[k].op.Done?
    ensures Passes(ls, GivenBack, k) == 1 && k !in Exec(s, ls).pl.callers
    ensures Exec(s, ls).calls[k].pc == Failed ==> Exec(s, ls).calls[k].op == Pending
  {
    MilestonesExactlyOnce(s, ls, k);
    RunKeepsInv(s, ls);
    assert CallOk(ViewOf(Exec(s, ls), k));
    EndedCall(ViewOf(Exec(s, ls), k));
  }

  lemma EndedCall(v: View)
    requires CallOk(v)
    ensures v.call.pc == Failed || v.call.op.Done? ==> v.point == None
    ensures v.call.pc == Failed ==> v.call.op == Pending
  {
    assert RegionPart(v) && OpPart(v) && CtxPart(v);
  }

  /**
   The error path of sendAsync and ReceiveAsync leaves nothing behind: no entry in the registry, no token, no
   staging buffer and no region in hand.
   */
  lemma FailedCallLeavesNothing(s0: State, ls: Schedule, k: CallId)
    requires Start(s0) && Runnable(s0, ls) && At(Exec(s0, ls), k, Failed)
    ensures var s := Exec(s0, ls);
            && (forall a :: a in s.cx.registry ==> s.cx.registry[a] != k)
            && (forall a :: a in s.cx.live ==> s.cx.live[a].owner != C.Token(k) && s.cx.live[a].owner != C.Staging(k))
            && k !in s.pl.callers
  {
    RunKeepsInv(s0, ls);
    var s := Exec(s0, ls);
    assert CallOk(ViewOf(s, k));
    EndedCall(ViewOf(s, k));
    FailedCallHoldsNoContext(ViewOf(s, k));
    UnheldByContext(s.cx, k);
  }

  lemma FailedCallHoldsNoContext(v: View)
    requires CallOk(v) && v.call.pc == Failed
    ensures v.ctx.Some? ==> v.ctx.value.stage == C.Freed
  {
    assert CtxPart(v);
  }

  lemma UnheldByContext(s: C.State, k: CallId)
    requires C.Inv(s) && (k in s.ctxs ==> s.ctxs[k].stage == C.Freed)
    ensures forall a :: a in s.registry ==> s.registry[a] != k
    ensures forall a :: a in s.live ==> s.live[a].owner != C.Token(k) && s.live[a].owner != C.Staging(k)
  {
    if k in s.ctxs { assert C.FieldsOk(s.ctxs[k]); }
    forall a | a in s.live ensures s.live[a].owner != C.Token(k) && s.live[a].owner != C.Staging(k) {
      assert C.BlockOk(s, a);
    }
    forall a | a in s.registry ensures s.registry[a] != k {
      assert C.EntryOk(s, a);
    }
  }

  // ---------------------------------------------------------------- results and orphans

  lemma {:induction false} PassesMeansIn(ls: Schedule, k: CallId)
    ensures Passes(ls, Attached, k) > 0 <==> Post(Attach(k)) in ls
  {
    if ls != [] { PassesMeansIn(ls[1..], k); }
  }

  /** What the dispatcher's look at the value of a context comes to. */
  lemma LoadDecides(s: State, k: CallId)
    requires Inv(s) && Enabled(s, Dispatch(LoadValue(k)))
    ensures var t := Step(s, Dispatch(LoadValue(k)));
            k in t.calls && (t.disp == Storing(k, s.disp.failed) <==> s.calls[k].pc == Returned)
            && (t.calls[k].dropped <==> s.calls[k].pc != Returned) && t.calls[k].op == Pending
  {
    assert CallOk(ViewOf(s, k));
    LoadedIsPending(ViewOf(s, k));
  }

  lemma LoadedIsPending(v: View)
    requires CallOk(v) && v.role.Releases?
    ensures v.call.op == Pending && (v.call.pc == Returned ==> !v.call.dropped)
  {
    assert OpPart(v);
  }

  /**
   When the dispatcher has read an entry and looks at the value of its context, it finds the operation, and stores the
   result next, exactly if the posting call has attached it by then; if it has not, the entry is dropped.
   */
  lemma CompletesExactlyIfAttached(s0: State, ls: Schedule, k: CallId)
    requires Start(s0) && Runnable(s0, ls) && Enabled(Exec(s0, ls), Dispatch(LoadValue(k)))
    ensures var t := Step(Exec(s0, ls), Dispatch(LoadValue(k)));
            && k in t.calls
            && (t.disp == Storing(k, Exec(s0, ls).disp.failed) <==> Post(Attach(k)) in ls)
            && (t.calls[k].dropped <==> Post(Attach(k)) !in ls)
  {
    RunKeepsInv(s0, ls);
    LoadDecides(Exec(s0, ls), k);
    RunKeepsInv(s0, []);
    PassesOnce(s0, ls, Attached, k);
    PassesMeansIn(ls, k);
  }

  /** Which is the result that the entry reports. */
  lemma FoundOperationGetsResult(s: State, k: CallId, failed: bool)
    requires s.disp == Storing(k, failed) && k in s.calls
    ensures Enabled(s, Dispatch(StoreResult(k)))
    ensures Step(s, Dispatch(StoreResult(k))).calls == s.calls[k := Resulting(s.calls[k], failed)]
  {
  }

  lemma LaterTrans(c: Call, d: Call, e: Call)
    requires Later(c, d) && Later(d, e)
    ensures Later(c, e)
  {
  }

  lemma {:induction false} RunIsLater(s: State, ls: Schedule, k: CallId)
    requires Inv(s) && Runnable(s, ls) && k in s.calls
    ensures k in Exec(s, ls).calls && Later(s.calls[k], Exec(s, ls).calls[k])
    decreases ls
  {
    if ls != [] {
      StepIsLater(s, ls[0]);
      StepKeepsInv(s, ls[0]);
      var t := Step(s, ls[0]);
      assert k in t.calls && Later(s.calls[k], t.calls[k]);
      RunIsLater(t, ls[1..], k);
      LaterTrans(s.calls[k], t.calls[k], Exec(s, ls).calls[k]);
    }
  }

  /** Once an operation has a result, the result stays: it failed for ever or succeeded for ever. */
  lemma ResultIsFinal(s: State, ls: Schedule, more: Schedule, k: CallId)
    requires Start(s) && Runnable(s, ls) && Runnable(Exec(s, ls), more)
    requires k in Exec(s, ls).calls && Exec(s, ls).calls[k].op != Pending
    ensures var t := Exec(Exec(s, ls), more);
            k in t.calls && t.calls[k].op != Pending && t.calls[k].op.failed == Exec(s, ls).calls[k].op.failed
  {
    RunKeepsInv(s, ls);
    RunIsLater(Exec(s, ls), more, k);
  }

  /**
   A completion that the dispatcher reads before the posting call has attached its operation is lost: in every
   continuation the future stays pending, its region is never given back, and its context is gone.
   */
  lemma OrphanForEver(s: State, ls: Schedule, more: Schedule, k: CallId)
    requires Start(s) && Runnable(s, ls) && Runnable(Exec(s, ls), more)
    requires k in Exec(s, ls).calls && Exec(s, ls).calls[k].dropped
    ensures var t := Exec(Exec(s, ls), more);
            && k in t.calls && t.calls[k].dropped && t.calls[k].op == Pending && !ReleaseStarted(t.calls[k])
            && (t.calls[k].region.Some? ==> k in t.pl.callers && t.pl.callers[k] == P.Using(t.calls[k].region.value))
            && k in t.cx.ctxs && t.cx.ctxs[k].stage == C.Freed
  {
    RunKeepsInv(s, ls);
    RunIsLater(Exec(s, ls), more, k);
    ExecKeepsInv(Exec(s, ls), more);
    var t := Exec(Exec(s, ls), more);
    assert CallOk(ViewOf(t, k));
    OrphanView(ViewOf(t, k));
  }

  lemma OrphanView(v: View)
    requires CallOk(v) && v.call.dropped
    ensures v.call.op == Pending && !ReleaseStarted(v.call)
    ensures v.call.region.Some? ==> v.point == Some(P.Using(v.call.region.value))
    ensures v.ctx.Some? && v.ctx.value.stage == C.Freed
  {
    assert OpPart(v) && CtxPart(v) && RegionPart(v);
  }
}
