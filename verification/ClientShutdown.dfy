/** Close, the dispatcher's exit, and the recorded dispatcher error. */
module ClientShutdown {
  import opened Basics
  import C = ContextProtocol
  import P = PoolProtocol
  import opened ClientProtocol
  import opened ClientInvariant
  import opened ClientPreservation
  import opened ClientTheorems
  import O = ClientOutcomes

  /**
   However many Close calls there are, the stop channel is closed at most once and the teardown runs at most
   once; a pool or handle closed by it means that the dispatcher has exited.
   */
  lemma TeardownAfterExit(s0: State, ls: Schedule)
    requires Start(s0) && Runnable(s0, ls)
    ensures var s := Exec(s0, ls);
            && s.stops <= 1 && s.teardowns <= 1
            && (s.teardowns > 0 || s.pl.closed || s.handlesClosed ==> s.disp == Exited && s.stops == 1)
            && (s.handlesClosed ==> s.pl.closed && s.pl.drain == P.Over)
            && (s.stops > 0 ==> s.closed)
  {
    RunKeepsInv(s0, ls);
  }

  /** A step that reads the queue, or touches what it read. */
  predicate ByDispatcher(l: Label) {
    l.Dispatch? && (l.dispatch.ReadEntry? || l.dispatch.Lookup? || l.dispatch.SwapResolve? || l.dispatch.LoadValue?
                    || l.dispatch.StoreResult? || l.dispatch.RecordError? || l.dispatch.Exit?)
  }

  /** `c` was posted to the provider, so only the dispatcher would complete it. */
  predicate Outstanding(calls: map<CallId, Call>, k: CallId) {
    k in calls && (calls[k].pc == Accepted || calls[k].pc == Counted || calls[k].pc == Returned)
      && calls[k].op == Pending
  }

  lemma PrepareAfterExit(s: State, a: PrepareStep, k: CallId)
    requires CanPrepare(s, a)
    ensures Outstanding(s.calls, k) ==> Outstanding(After(s, MovedByPrepare(s, a)), k)
  {
  }

  lemma PostLeavesDispatcher(s: State, a: PostStep)
    requires CanPost(s, a)
    ensures DoPost(s, a).disp == s.disp && DoPost(s, a).err == s.err
  {
    match a
    case Stage(j) => assert DoStage(s, j).disp == s.disp && DoStage(s, j).err == s.err;
    case Inject(j) => assert DoCapture(s, j).disp == s.disp && DoCapture(s, j).err == s.err;
    case _ =>
  }

  lemma PostAfterExit(s: State, a: PostStep, k: CallId)
    requires CanPost(s, a)
    ensures Outstanding(s.calls, k) ==> Outstanding(After(s, MovedByPost(s, a)), k)
  {
    if !a.Count? && !a.Attach? && Outstanding(s.calls, k) { OtherPostIsElsewhere(s, a, k); }
  }

  lemma OtherPostIsElsewhere(s: State, a: PostStep, k: CallId)
    requires CanPost(s, a) && !a.Count? && !a.Attach? && Outstanding(s.calls, k)
    ensures a.k != k && MovedByPost(s, a).Some? && MovedByPost(s, a).value.0 == a.k
  {
  }

  lemma PartsLeaveDispatcher(s: State, c: C.Label, p: P.Label)
    ensures Ctx(s, c).disp == s.disp && Pool(s, p).disp == s.disp
    ensures Ctx(s, c).err == s.err && Pool(s, p).err == s.err
  {
  }

  lemma ReleasedLeavesDispatcher(s: State, k: CallId)
    requires k in s.calls
    ensures Released(s, k).disp == s.disp && Released(s, k).err == s.err
  {
    PartsLeaveDispatcher(s, C.Store(k), Closure(s, k));
  }

  lemma UndoLeavesDispatcher(s: State, a: UndoStep)
    requires CanUndo(s, a)
    ensures DoUndo(s, a).disp == s.disp && DoUndo(s, a).err == s.err
  {
    match a
    case SwapRelease(j) => PartsLeaveDispatcher(s, C.SwapRelease(j), P.ClosePool);
    case CtxStep(j, c) => PartsLeaveDispatcher(s, c, P.ClosePool);
    case PoolStep(j, p) => PartsLeaveDispatcher(s, C.Store(j), p);
    case GiveBack(j) => ReleasedLeavesDispatcher(s, j);
    case _ =>
  }

  lemma UndoAfterExit(s: State, a: UndoStep, k: CallId)
    requires CanUndo(s, a)
    ensures Outstanding(s.calls, k) ==> Outstanding(After(s, MovedByUndo(s, a)), k)
  {
  }

  lemma DispatchAfterExit(s: State, a: DispatchStep, k: CallId)
    requires CanDispatch(s, a) && s.disp == Exited
    ensures Outstanding(s.calls, k) ==> Outstanding(After(s, MovedByDispatch(s, a)), k)
  {
  }

  lemma DispatchKeepsExit(s: State, a: DispatchStep)
    requires CanDispatch(s, a) && s.disp == Exited
    ensures DoDispatch(s, a).disp == Exited && !ByDispatcher(Dispatch(a))
  {
    match a
    case Free(j) => ReleasedLeavesDispatcher(s, j);
    case _ =>
  }

  lemma PrepareKeepsExit(s: State, a: PrepareStep)
    requires CanPrepare(s, a)
    ensures DoPrepare(s, a).disp == s.disp
  {
  }

  lemma NetKeepsDispatcher(s: State, a: NetStep)
    requires CanNet(s, a)
    ensures DoNet(s, a).disp == s.disp && DoNet(s, a).err == s.err
  {
  }

  lemma ShutKeepsDispatcher(s: State, a: ShutStep)
    requires CanShut(s, a)
    ensures DoShut(s, a).disp == s.disp && DoShut(s, a).err == s.err
  {
  }

  lemma ExitIsFinal(s: State, l: Label)
    requires Enabled(s, l) && s.disp == Exited
    ensures Step(s, l).disp == Exited && !ByDispatcher(l)
  {
    match l
    case Prepare(a) => PrepareKeepsExit(s, a);
    case Post(a) => PostLeavesDispatcher(s, a);
    case Undo(a) => UndoLeavesDispatcher(s, a);
    case Net(a) => NetKeepsDispatcher(s, a);
    case Dispatch(a) => DispatchKeepsExit(s, a);
    case Shut(a) => ShutKeepsDispatcher(s, a);
  }

  lemma OutstandingStays(s: State, l: Label, k: CallId)
    requires Enabled(s, l) && s.disp == Exited && Outstanding(s.calls, k)
    ensures Outstanding(Step(s, l).calls, k)
  {
    StepMovesOne(s, l);
    match l
    case Prepare(a) => PrepareAfterExit(s, a, k);
    case Post(a) => PostAfterExit(s, a, k);
    case Undo(a) => UndoAfterExit(s, a, k);
    case Dispatch(a) => DispatchAfterExit(s, a, k);
    case _ =>
  }

  /**
   Once the dispatcher has exited it takes no further step, and an operation that is still outstanding then
   is never completed: Close waits for the dispatcher, not for operations in flight.
   */
  lemma {:induction false} NothingAfterExit(s: State, ls: Schedule, k: CallId)
    requires s.disp == Exited && Runnable(s, ls)
    ensures Exec(s, ls).disp == Exited
    ensures forall i :: 0 <= i < |ls| ==> !ByDispatcher(ls[i])
    ensures Outstanding(s.calls, k) ==> Outstanding(Exec(s, ls).calls, k)
    decreases ls
  {
    if ls != [] {
      ExitIsFinal(s, ls[0]);
      if Outstanding(s.calls, k) { OutstandingStays(s, ls[0], k); }
      NothingAfterExit(Step(s, ls[0]), ls[1..], k);
      assert forall i :: 0 < i < |ls| ==> ls[i] == ls[1..][i - 1];
    }
  }

  /** In every run, from the start of the teardown on, the dispatcher reads nothing and completes nothing. */
  lemma NothingAfterTeardown(s0: State, ls: Schedule, more: Schedule, k: CallId)
    requires Start(s0) && Runnable(s0, ls) && Runnable(Exec(s0, ls), more)
    requires Exec(s0, ls).teardowns > 0 || Exec(s0, ls).pl.closed || Exec(s0, ls).handlesClosed
    ensures forall i :: 0 <= i < |more| ==> !ByDispatcher(more[i])
    ensures Outstanding(Exec(s0, ls).calls, k) ==> Outstanding(Exec(Exec(s0, ls), more).calls, k)
  {
    TeardownAfterExit(s0, ls);
    NothingAfterExit(Exec(s0, ls), more, k);
  }

  // ---------------------------------------------------------------- who is settled

  /** The provider took the post of the call, and did not take it by inject. */
  predicate IsPosted(calls: map<CallId, Call>, k: CallId) {
    k in calls && (calls[k].pc == Accepted || calls[k].pc == Counted || calls[k].pc == Returned)
  }

  predicate IsSettled(calls: map<CallId, Call>, k: CallId) {
    k in calls && calls[k].op.Done?
  }

  /** With the dispatcher gone a posted call is settled or outstanding, and nothing in between. */
  lemma SettledOrOutstanding(s: State, k: CallId)
    requires Inv(s) && s.disp == Exited && IsPosted(s.calls, k)
    ensures IsSettled(s.calls, k) || Outstanding(s.calls, k)
  {
    assert CallOk(ViewOf(s, k));
    PostedIsDecided(ViewOf(s, k));
  }

  lemma PostedIsDecided(v: View)
    requires CallOk(v) && v.role == NoRole && (v.call.pc == Accepted || v.call.pc == Counted || v.call.pc == Returned)
    ensures v.call.op == Pending || v.call.op.Done?
  {
    assert OpPart(v) && CtxPart(v);
  }

  /** Only an unsettled call can come to be posted. */
  lemma PostedFresh(s: State, l: Label, k: CallId)
    requires Inv(s) && Enabled(s, l) && !IsPosted(s.calls, k) && IsPosted(Step(s, l).calls, k)
    ensures Outstanding(Step(s, l).calls, k)
  {
    StepMovesOne(s, l);
    NewlyPosted(s, l, k);
    assert CallOk(ViewOf(s, k));
    StagedIsPending(ViewOf(s, k));
  }

  lemma NewlyPosted(s: State, l: Label, k: CallId)
    requires Enabled(s, l) && !IsPosted(s.calls, k) && IsPosted(After(s, Moved(s, l)), k)
    ensures l == Post(Accept(k)) && At(s, k, Staged)
  {
    match l
    case Prepare(a) => PrepareDoesNotPost(s, a, k);
    case Post(a) =>
    case Undo(a) => UndoDoesNotPost(s, a, k);
    case _ =>
  }

  lemma PrepareDoesNotPost(s: State, a: PrepareStep, k: CallId)
    requires CanPrepare(s, a)
    ensures IsPosted(After(s, MovedByPrepare(s, a)), k) ==> IsPosted(s.calls, k)
  {
  }

  lemma UndoDoesNotPost(s: State, a: UndoStep, k: CallId)
    requires CanUndo(s, a)
    ensures IsPosted(After(s, MovedByUndo(s, a)), k) ==> IsPosted(s.calls, k)
  {
  }

  lemma StagedIsPending(v: View)
    requires CallOk(v) && v.call.pc == Staged
    ensures v.call.op == Pending
  {
    assert OpPart(v) && CtxPart(v);
  }

  /** A call that is not posted yet, or outstanding. */
  predicate Unanswered(calls: map<CallId, Call>, k: CallId) {
    IsPosted(calls, k) ==> Outstanding(calls, k)
  }

  lemma StaysUnanswered(s: State, l: Label, k: CallId)
    requires Inv(s) && s.disp == Exited && Enabled(s, l) && Unanswered(s.calls, k)
    ensures Unanswered(Step(s, l).calls, k)
  {
    if IsPosted(s.calls, k) {
      OutstandingStays(s, l, k);
    } else if IsPosted(Step(s, l).calls, k) {
      PostedFresh(s, l, k);
    }
  }

  lemma {:induction false} UnansweredForEver(s: State, ls: Schedule, k: CallId)
    requires Inv(s) && s.disp == Exited && Runnable(s, ls) && Unanswered(s.calls, k)
    ensures Unanswered(Exec(s, ls).calls, k)
    decreases ls
  {
    if ls != [] {
      ExitIsFinal(s, ls[0]);
      StepKeepsInv(s, ls[0]);
      StaysUnanswered(s, ls[0], k);
      UnansweredForEver(Step(s, ls[0]), ls[1..], k);
    }
  }

  /**
   Which futures Close leaves unsettled: a call that the provider took, before or after the exit of the dispatcher, is
   settled in a state after that exit exactly if it was settled at the exit; otherwise it is outstanding.
   */
  lemma SettledExactlyAtExit(s0: State, ls: Schedule, more: Schedule, k: CallId)
    requires Start(s0) && Runnable(s0, ls) && Exec(s0, ls).disp == Exited && Runnable(Exec(s0, ls), more)
    requires IsPosted(Exec(Exec(s0, ls), more).calls, k)
    ensures var s := Exec(s0, ls);
            var t := Exec(s, more);
            && (IsSettled(t.calls, k) <==> IsSettled(s.calls, k))
            && (!IsSettled(s.calls, k) ==> Outstanding(t.calls, k))
  {
    RunKeepsInv(s0, ls);
    var s := Exec(s0, ls);
    if IsSettled(s.calls, k) {
      O.RunIsLater(s, more, k);
    } else {
      if IsPosted(s.calls, k) { SettledOrOutstanding(s, k); }
      UnansweredForEver(s, more, k);
    }
  }

  // ---------------------------------------------------------------- the recorded error

  /** The first error that the dispatcher reports in a schedule. */
  function FirstError(ls: Schedule): Option<nat> {
    if ls == [] then None
    else if ls[0].Dispatch? && ls[0].dispatch.RecordError? then Some(ls[0].dispatch.e)
    else FirstError(ls[1..])
  }

  lemma DispatchKeepsError(s: State, a: DispatchStep)
    requires CanDispatch(s, a) && !a.RecordError?
    ensures DoDispatch(s, a).err == s.err
  {
    match a
    case Free(j) => ReleasedLeavesDispatcher(s, j);
    case Lookup(j) => PartsLeaveDispatcher(s, C.Lookup(j), P.ClosePool);
    case _ =>
  }

  lemma PrepareKeepsError(s: State, a: PrepareStep)
    requires CanPrepare(s, a)
    ensures DoPrepare(s, a).err == s.err
  {
  }

  lemma StepError(s: State, l: Label)
    requires Enabled(s, l)
    ensures Step(s, l).err == if s.err == None then FirstError([l]) else s.err
  {
    match l
    case Prepare(a) => PrepareKeepsError(s, a);
    case Post(a) => PostLeavesDispatcher(s, a);
    case Undo(a) => UndoLeavesDispatcher(s, a);
    case Dispatch(a) => if !a.RecordError? { DispatchKeepsError(s, a); }
    case Net(a) => NetKeepsDispatcher(s, a);
    case Shut(a) => ShutKeepsDispatcher(s, a);
  }

  /** The recorded error is the first one the dispatcher met, and it never changes after that. */
  lemma {:induction false} RecordedErrorIsTheFirst(s: State, ls: Schedule)
    requires Runnable(s, ls)
    ensures Exec(s, ls).err == if s.err == None then FirstError(ls) else s.err
    decreases ls
  {
    if ls != [] {
      StepError(s, ls[0]);
      RecordedErrorIsTheFirst(Step(s, ls[0]), ls[1..]);
    }
  }
}
