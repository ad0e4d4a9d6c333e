/** The client's posted, completed and errored counters agree with the operations in every reachable state. */
module ClientCounters {
  import opened Basics
  import C = ContextProtocol
  import P = PoolProtocol
  import opened ClientProtocol
  import opened ClientInvariant
  import opened ClientPreservation
  import opened ClientTheorems

  /** The posted counter has been updated for the call. */
  predicate Posts(c: Call, kind: Kind) {
    c.kind == kind && (c.pc == Counted || c.pc == Returned || c.pc == InjectPosted || c.pc == InjectCounted
                       || c.pc == InjectReturned)
  }

  /** `emit` has updated the completed or the errored counter for the call. */
  predicate Emits(c: Call, kind: Kind, failed: bool) {
    c.kind == kind && (c.op.Tallied? || c.op.Freeing? || c.op.Done?) && c.op.failed == failed
  }

  datatype Counter = PostedOnes | EmittedOnes(failed: bool)

  predicate Counts(c: Call, kind: Kind, which: Counter) {
    match which
    case PostedOnes => Posts(c, kind)
    case EmittedOnes(failed) => Emits(c, kind, failed)
  }

  function Those(calls: map<CallId, Call>, kind: Kind, which: Counter): set<CallId> {
    set k | k in calls && Counts(calls[k], kind, which)
  }

  function Reading(s: State, kind: Kind, which: Counter): nat {
    var st := if kind == Send then s.sends else s.receives;
    match which
    case PostedOnes => st.posted
    case EmittedOnes(failed) => if failed then st.errored else st.completed
  }

  ghost predicate Agrees(s: State, kind: Kind, which: Counter) {
    Reading(s, kind, which) == |Those(s.calls, kind, which)|
  }

  ghost predicate StatsOk(s: State) {
    forall kind, which {:trigger Agrees(s, kind, which)} :: Agrees(s, kind, which)
  }

  // ---------------------------------------------------------------- one step

  /** A step moves a counter by one exactly if it makes its call one of those counted. */
  predicate Tracks(s: State, t: State, m: Option<(CallId, Call)>, kind: Kind, which: Counter) {
    if m.Some? && Counts(m.value.1, kind, which) && !(m.value.0 in s.calls && Counts(s.calls[m.value.0], kind, which))
    then Reading(t, kind, which) == Reading(s, kind, which) + 1
    else Reading(t, kind, which) == Reading(s, kind, which)
  }

  /** A counted call stays counted. */
  predicate Monotone(s: State, m: Option<(CallId, Call)>, kind: Kind, which: Counter) {
    m.Some? && m.value.0 in s.calls && Counts(s.calls[m.value.0], kind, which) ==> Counts(m.value.1, kind, which)
  }

  lemma ThoseAfter(calls: map<CallId, Call>, k: CallId, c: Call, kind: Kind, which: Counter)
    ensures Those(calls[k := c], kind, which)
            == if Counts(c, kind, which) then Those(calls, kind, which) + {k} else Those(calls, kind, which) - {k}
  {
  }

  lemma AgreementMoves(s: State, t: State, m: Option<(CallId, Call)>, kind: Kind, which: Counter)
    requires Agrees(s, kind, which) && t.calls == After(s, m)
    requires Tracks(s, t, m, kind, which) && Monotone(s, m, kind, which)
    ensures Agrees(t, kind, which)
  {
    if m.Some? {
      ThoseAfter(s.calls, m.value.0, m.value.1, kind, which);
      assert m.value.0 in Those(s.calls, kind, which)
             <==> m.value.0 in s.calls && Counts(s.calls[m.value.0], kind, which);
      if !Counts(m.value.1, kind, which) {
        assert Those(s.calls, kind, which) - {m.value.0} == Those(s.calls, kind, which);
      } else if m.value.0 in Those(s.calls, kind, which) {
        assert Those(s.calls, kind, which) + {m.value.0} == Those(s.calls, kind, which);
      }
    }
  }

  lemma PartsLeaveCounters(s: State, c: C.Label, p: P.Label, kind: Kind, which: Counter)
    ensures Reading(Ctx(s, c), kind, which) == Reading(s, kind, which)
    ensures Reading(Pool(s, p), kind, which) == Reading(s, kind, which)
  {
  }

  /** Neither the step's new record nor its old one makes a difference to the counter. */
  predicate SameCount(s: State, m: Option<(CallId, Call)>, kind: Kind, which: Counter) {
    m.Some? ==> (Counts(m.value.1, kind, which) <==> m.value.0 in s.calls && Counts(s.calls[m.value.0], kind, which))
  }

  lemma PrepareLeavesCounters(s: State, a: PrepareStep, kind: Kind, which: Counter)
    requires CanPrepare(s, a)
    ensures Reading(DoPrepare(s, a), kind, which) == Reading(s, kind, which)
  {
    match a
    case GetRegion(k, p) => assert Reading(DoGetRegion(s, k, p), kind, which) == Reading(s, kind, which);
    case Fill(k) => assert Reading(DoFill(s, k), kind, which) == Reading(s, kind, which);
    case _ =>
  }

  lemma PrepareKeepsCount(s: State, a: PrepareStep, kind: Kind, which: Counter)
    requires CanPrepare(s, a)
    ensures SameCount(s, MovedByPrepare(s, a), kind, which)
  {
  }

  lemma PrepareTracks(s: State, a: PrepareStep, kind: Kind, which: Counter)
    requires CanPrepare(s, a)
    ensures Tracks(s, DoPrepare(s, a), MovedByPrepare(s, a), kind, which)
            && Monotone(s, MovedByPrepare(s, a), kind, which)
  {
    PrepareLeavesCounters(s, a, kind, which);
    PrepareKeepsCount(s, a, kind, which);
  }

  lemma PostLeavesCounters(s: State, a: PostStep, kind: Kind, which: Counter)
    requires CanPost(s, a) && !a.Count?
    ensures Reading(DoPost(s, a), kind, which) == Reading(s, kind, which)
  {
    match a
    case Inject(k) => assert Reading(DoCapture(s, k), kind, which) == Reading(s, kind, which);
    case Stage(k) => assert Reading(DoStage(s, k), kind, which) == Reading(s, kind, which);
    case _ =>
  }

  lemma PostKeepsCount(s: State, a: PostStep, kind: Kind, which: Counter)
    requires CanPost(s, a) && !a.Count?
    ensures SameCount(s, MovedByPost(s, a), kind, which)
  {
  }

  lemma PostTracks(s: State, a: PostStep, kind: Kind, which: Counter)
    requires CanPost(s, a)
    ensures Tracks(s, DoPost(s, a), MovedByPost(s, a), kind, which) && Monotone(s, MovedByPost(s, a), kind, which)
  {
    if !a.Count? {
      PostLeavesCounters(s, a, kind, which);
      PostKeepsCount(s, a, kind, which);
    }
  }

  lemma ReleaseLeavesCounters(s: State, k: CallId, kind: Kind, which: Counter)
    requires k in s.calls
    ensures Reading(Released(s, k), kind, which) == Reading(s, kind, which)
  {
    PartsLeaveCounters(s, C.Store(k), Closure(s, k), kind, which);
  }

  lemma UndoLeavesCounters(s: State, a: UndoStep, kind: Kind, which: Counter)
    requires CanUndo(s, a) && !a.InjectCount?
    ensures Reading(DoUndo(s, a), kind, which) == Reading(s, kind, which)
  {
    match a
    case SwapRelease(k) => PartsLeaveCounters(s, C.SwapRelease(k), P.ClosePool, kind, which);
    case CtxStep(k, c) => PartsLeaveCounters(s, c, P.ClosePool, kind, which);
    case PoolStep(k, p) => PartsLeaveCounters(s, C.Store(k), p, kind, which);
    case GiveBack(k) => ReleaseLeavesCounters(s, k, kind, which);
    case _ =>
  }

  lemma UndoKeepsCount(s: State, a: UndoStep, kind: Kind, which: Counter)
    requires CanUndo(s, a) && !a.InjectCount?
    requires a.InjectComplete? && a.k in s.calls ==> s.calls[a.k].op == Pending
    ensures SameCount(s, MovedByUndo(s, a), kind, which)
  {
  }

  lemma UndoTracks(s: State, a: UndoStep, kind: Kind, which: Counter)
    requires CanUndo(s, a)
    requires a.InjectComplete? && a.k in s.calls ==> s.calls[a.k].op == Pending
    ensures Tracks(s, DoUndo(s, a), MovedByUndo(s, a), kind, which) && Monotone(s, MovedByUndo(s, a), kind, which)
  {
    if !a.InjectCount? {
      UndoLeavesCounters(s, a, kind, which);
      UndoKeepsCount(s, a, kind, which);
    }
  }

  lemma CompletionLeavesCounters(s: State, a: DispatchStep, kind: Kind, which: Counter)
    requires CanDispatch(s, a) && !a.Tally?
    ensures Reading(DoDispatch(s, a), kind, which) == Reading(s, kind, which)
  {
    match a
    case ReadEntry(k, failed) => PartsLeaveCounters(s, C.ReadEntry(k), P.ClosePool, kind, which);
    case Lookup(k) => LookupLeavesCounters(s, k, s.disp.failed, kind, which);
    case SwapResolve(k) => PartsLeaveCounters(s, C.SwapResolve(k), P.ClosePool, kind, which);
    case Free(k) => ReleaseLeavesCounters(s, k, kind, which);
    case LoadValue(k) => assert Reading(DoLoadValue(s, k, s.disp.failed), kind, which) == Reading(s, kind, which);
    case Finish(k) => assert Reading(DoFinish(s, k), kind, which) == Reading(s, kind, which);
    case _ =>
  }

  lemma CompletionKeepsCount(s: State, a: DispatchStep, kind: Kind, which: Counter)
    requires CanDispatch(s, a) && !a.Tally?
    requires a.StoreResult? && a.k in s.calls ==> s.calls[a.k].op == Pending
    ensures SameCount(s, MovedByDispatch(s, a), kind, which)
  {
  }

  lemma LookupLeavesCounters(s: State, k: CallId, failed: bool, kind: Kind, which: Counter)
    ensures Reading(DoLookup(s, k, failed), kind, which) == Reading(s, kind, which)
  {
    PartsLeaveCounters(s, C.Lookup(k), P.ClosePool, kind, which);
  }

  lemma DispatchTracks(s: State, a: DispatchStep, kind: Kind, which: Counter)
    requires CanDispatch(s, a)
    requires a.StoreResult? && a.k in s.calls ==> s.calls[a.k].op == Pending
    ensures Tracks(s, DoDispatch(s, a), MovedByDispatch(s, a), kind, which)
    ensures Monotone(s, MovedByDispatch(s, a), kind, which)
  {
    if !a.Tally? {
      CompletionLeavesCounters(s, a, kind, which);
      CompletionKeepsCount(s, a, kind, which);
    }
  }

  lemma NetTracks(s: State, a: NetStep, kind: Kind, which: Counter)
    requires CanNet(s, a)
    ensures Tracks(s, DoNet(s, a), MovedByNet(s, a), kind, which) && Monotone(s, MovedByNet(s, a), kind, which)
  {
  }

  lemma ShutTracks(s: State, a: ShutStep, kind: Kind, which: Counter)
    requires CanShut(s, a)
    ensures Tracks(s, DoShut(s, a), None, kind, which)
  {
  }

  lemma StepTracks(s: State, l: Label, kind: Kind, which: Counter)
    requires Inv(s) && Enabled(s, l)
    ensures Tracks(s, Step(s, l), Moved(s, l), kind, which) && Monotone(s, Moved(s, l), kind, which)
  {
    match l
    case Prepare(a) => PrepareTracks(s, a, kind, which);
    case Post(a) => PostTracks(s, a, kind, which);
    case Undo(a) =>
      if a.InjectComplete? { assert CallOk(ViewOf(s, a.k)); StillPending(ViewOf(s, a.k)); }
      UndoTracks(s, a, kind, which);
    case Net(a) => NetTracks(s, a, kind, which);
    case Dispatch(a) =>
      if a.StoreResult? { assert CallOk(ViewOf(s, a.k)); StillPending(ViewOf(s, a.k)); }
      DispatchTracks(s, a, kind, which);
    case Shut(a) => ShutTracks(s, a, kind, which);
  }

  lemma StepKeepsStats(s: State, l: Label)
    requires Inv(s) && Enabled(s, l) && StatsOk(s)
    ensures StatsOk(Step(s, l))
  {
    StepMovesOne(s, l);
    var t := Step(s, l);
    forall kind, which ensures Agrees(t, kind, which) {
      assert Agrees(s, kind, which);
      StepTracks(s, l, kind, which);
      AgreementMoves(s, t, Moved(s, l), kind, which);
    }
  }

  lemma {:induction false} ExecKeepsStats(s: State, ls: Schedule)
    requires Inv(s) && StatsOk(s) && Runnable(s, ls)
    ensures StatsOk(Exec(s, ls))
    decreases ls
  {
    if ls != [] {
      StepKeepsInv(s, ls[0]);
      StepKeepsStats(s, ls[0]);
      ExecKeepsStats(Step(s, ls[0]), ls[1..]);
    }
  }

  // ---------------------------------------------------------------- conservation

  /** What may have become of a call that is counted as posted. */
  datatype Fate =
    | Any
    | Told                    // to the handlers, and counted as completed or errored
    | Emitted(failed: bool)
    | Untold
    | Undecided               // no result
    | Waiting                 // no result, and the dispatcher has not met its entry
    | MidCompletion           // the result is stored but `emit` has not run
    | Orphaned                // the entry came before the operation was attached to its context

  predicate Meets(c: Call, fate: Fate) {
    match fate
    case Any => true
    case Told => c.op.Tallied? || c.op.Freeing? || c.op.Done?
    case Emitted(failed) => (c.op.Tallied? || c.op.Freeing? || c.op.Done?) && c.op.failed == failed
    case Untold => c.op == Pending || c.op.Stored?
    case Undecided => c.op == Pending
    case Waiting => c.op == Pending && !c.dropped
    case MidCompletion => c.op.Stored?
    case Orphaned => c.op == Pending && c.dropped
  }

  /** The calls counted as posted that met this fate. */
  function Met(calls: map<CallId, Call>, kind: Kind, fate: Fate): set<CallId> {
    set k | k in calls && Posts(calls[k], kind) && Meets(calls[k], fate)
  }

  lemma EmittedWasPosted(v: View, kind: Kind)
    requires CallOk(v) && v.call.kind == kind && v.call.op != Pending
    ensures Posts(v.call, kind) && !v.call.dropped
  {
    assert OpPart(v);
  }

  /**
   In every reachable state, for sends and for receives: posted is completed plus errored plus the counted
   operations that are waiting, in the middle of completing, or orphaned.
   */
  lemma CounterConservation(s0: State, ls: Schedule, kind: Kind)
    requires Start(s0) && Runnable(s0, ls)
    ensures var s := Exec(s0, ls);
            var st := if kind == Send then s.sends else s.receives;
            && st.posted == st.completed + st.errored
                 + |Met(s.calls, kind, Waiting)| + |Met(s.calls, kind, MidCompletion)| + |Met(s.calls, kind, Orphaned)|
            && st.completed + st.errored <= st.posted
  {
    RunKeepsInv(s0, ls);
    StatsStart(s0);
    ExecKeepsStats(s0, ls);
    var s := Exec(s0, ls);
    assert Agrees(s, kind, PostedOnes) && Agrees(s, kind, EmittedOnes(false)) && Agrees(s, kind, EmittedOnes(true));
    forall k | k in s.calls && s.calls[k].kind == kind && s.calls[k].op != Pending
      ensures Posts(s.calls[k], kind) && !s.calls[k].dropped
    {
      assert CallOk(ViewOf(s, k));
      EmittedWasPosted(ViewOf(s, k), kind);
    }
    EmittedAreMet(s.calls, kind);
    FatesSplit(s.calls, kind);
  }

  lemma StatsStart(s: State)
    requires Start(s)
    ensures Inv(s) && StatsOk(s)
  {
    forall kind, which ensures Agrees(s, kind, which) {
      assert Those(s.calls, kind, which) == {};
    }
  }

  lemma EmittedAreMet(calls: map<CallId, Call>, kind: Kind)
    requires forall k :: k in calls && calls[k].kind == kind && calls[k].op != Pending ==> Posts(calls[k], kind)
    ensures Those(calls, kind, PostedOnes) == Met(calls, kind, Any)
    ensures forall failed :: Those(calls, kind, EmittedOnes(failed)) == Met(calls, kind, Emitted(failed))
  {
  }

  lemma DisjointUnion(whole: set<CallId>, a: set<CallId>, b: set<CallId>)
    requires forall k :: k in whole <==> k in a || k in b
    requires forall k :: k in a ==> k !in b
    ensures |whole| == |a| + |b|
  {
    assert whole == a + b;
  }

  lemma FatesSplit(calls: map<CallId, Call>, kind: Kind)
    ensures |Met(calls, kind, Any)| == |Met(calls, kind, Emitted(false))| + |Met(calls, kind, Emitted(true))|
              + |Met(calls, kind, Waiting)| + |Met(calls, kind, MidCompletion)| + |Met(calls, kind, Orphaned)|
  {
    DisjointUnion(Met(calls, kind, Any), Met(calls, kind, Told), Met(calls, kind, Untold));
    DisjointUnion(Met(calls, kind, Told), Met(calls, kind, Emitted(false)), Met(calls, kind, Emitted(true)));
    DisjointUnion(Met(calls, kind, Untold), Met(calls, kind, Undecided), Met(calls, kind, MidCompletion));
    DisjointUnion(Met(calls, kind, Undecided), Met(calls, kind, Waiting), Met(calls, kind, Orphaned));
  }
}
