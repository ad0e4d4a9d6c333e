/** Which way a request goes, what it shows the receiver, and the length it reports. */
module ClientChoices {
  import opened Basics
  import C = ContextProtocol
  import P = PoolProtocol
  import opened ClientProtocol
  import opened ClientInvariant
  import opened ClientPreservation
  import opened ClientTheorems

  // ---------------------------------------------------------------- the configuration stays

  datatype Config = Config(hasPool: bool, requiresMR: bool, injectLimit: nat, size: nat)

  function ConfigOf(s: State): Config {
    Config(s.hasPool, s.requiresMR, s.injectLimit, s.pl.size)
  }

  lemma PartsKeepConfig(s: State, c: C.Label, p: P.Label)
    ensures ConfigOf(Ctx(s, c)) == ConfigOf(s) && ConfigOf(Pool(s, p)) == ConfigOf(s)
  {
    if P.Enabled(s.pl, p) { PoolKeys(s.pl, p); }
  }

  lemma ReleasedKeepsConfig(s: State, k: CallId)
    requires k in s.calls
    ensures ConfigOf(Released(s, k)) == ConfigOf(s)
  {
    PartsKeepConfig(s, C.Store(k), Closure(s, k));
  }

  lemma PrepareKeepsConfig(s: State, a: PrepareStep)
    requires CanPrepare(s, a)
    ensures ConfigOf(DoPrepare(s, a)) == ConfigOf(s)
  {
    match a
    case Admit(k) => PartsKeepConfig(s, C.Store(k), P.Admit(k));
    case Miss(k) => PartsKeepConfig(s, C.Store(k), P.Miss(k));
    case GetRegion(k, p) => PartsKeepConfig(s, C.Store(k), p);
    case Fill(k) => PartsKeepConfig(s, C.Store(k), P.Write(k, s.calls[k].user));
    case ProvisionFails(k) => PartsKeepConfig(s, C.Store(k), P.ProvisionFails(k));
    case _ =>
  }

  lemma PostKeepsConfig(s: State, a: PostStep)
    requires CanPost(s, a)
    ensures ConfigOf(DoPost(s, a)) == ConfigOf(s)
  {
    match a
    case Inject(k) => assert ConfigOf(DoCapture(s, k)) == ConfigOf(s);
    case Stage(k) => assert ConfigOf(DoStage(s, k)) == ConfigOf(s);
    case _ =>
  }

  lemma UndoKeepsConfig(s: State, a: UndoStep)
    requires CanUndo(s, a)
    ensures ConfigOf(DoUndo(s, a)) == ConfigOf(s)
  {
    match a
    case SwapRelease(k) => PartsKeepConfig(s, C.SwapRelease(k), P.ClosePool);
    case CtxStep(k, c) => PartsKeepConfig(s, c, P.ClosePool);
    case PoolStep(k, p) => PartsKeepConfig(s, C.Store(k), p);
    case GiveBack(k) => ReleasedKeepsConfig(s, k);
    case _ =>
  }

  lemma NetKeepsConfig(s: State, a: NetStep)
    requires CanNet(s, a)
    ensures ConfigOf(DoNet(s, a)) == ConfigOf(s)
  {
    match a
    case Deliver(k, msg, from) => PartsKeepConfig(s, C.Write(k, msg), P.Write(k, msg));
    case _ =>
  }

  lemma DispatchKeepsConfig(s: State, a: DispatchStep)
    requires CanDispatch(s, a)
    ensures ConfigOf(DoDispatch(s, a)) == ConfigOf(s)
  {
    match a
    case ReadEntry(k, failed) => PartsKeepConfig(s, C.ReadEntry(k), P.ClosePool);
    case Lookup(k) => LookupKeepsConfig(s, k, s.disp.failed);
    case SwapResolve(k) => PartsKeepConfig(s, C.SwapResolve(k), P.ClosePool);
    case RecordError(e) =>
    case Exit =>
    case _ => CompletionKeepsConfig(s, a);
  }

  lemma LookupKeepsConfig(s: State, k: CallId, failed: bool)
    ensures ConfigOf(DoLookup(s, k, failed)) == ConfigOf(s)
  {
    PartsKeepConfig(s, C.Lookup(k), P.ClosePool);
  }

  lemma CompletionKeepsConfig(s: State, a: DispatchStep)
    requires CanDispatch(s, a) && (a.LoadValue? || a.StoreResult? || a.Tally? || a.Free? || a.Finish?)
    ensures ConfigOf(DoDispatch(s, a)) == ConfigOf(s)
  {
    match a
    case Free(k) => ReleasedKeepsConfig(s, k);
    case Tally(k) => TallyKeepsConfig(s, k);
    case Finish(k) => FinishKeepsConfig(s, k);
    case _ =>
  }

  lemma TallyKeepsConfig(s: State, k: CallId)
    requires k in s.calls && s.calls[k].op.Stored?
    ensures ConfigOf(DoTally(s, k)) == ConfigOf(s)
  {
  }

  lemma FinishKeepsConfig(s: State, k: CallId)
    requires k in s.calls && s.calls[k].op.Freeing?
    ensures ConfigOf(DoFinish(s, k)) == ConfigOf(s)
  {
  }

  lemma ShutKeepsConfig(s: State, a: ShutStep)
    requires CanShut(s, a)
    ensures ConfigOf(DoShut(s, a)) == ConfigOf(s)
  {
    match a
    case ClosePool => PartsKeepConfig(s, C.Store(0), P.ClosePool);
    case DrainStep(p) => PartsKeepConfig(s, C.Store(0), p);
    case _ =>
  }

  lemma StepKeepsConfig(s: State, l: Label)
    requires Enabled(s, l)
    ensures ConfigOf(Step(s, l)) == ConfigOf(s)
  {
    match l
    case Prepare(a) => PrepareKeepsConfig(s, a);
    case Post(a) => PostKeepsConfig(s, a);
    case Undo(a) => UndoKeepsConfig(s, a);
    case Net(a) => NetKeepsConfig(s, a);
    case Dispatch(a) => DispatchKeepsConfig(s, a);
    case Shut(a) => ShutKeepsConfig(s, a);
  }

  lemma {:induction false} RunKeepsConfig(s: State, ls: Schedule)
    requires Runnable(s, ls)
    ensures ConfigOf(Exec(s, ls)) == ConfigOf(s)
    decreases ls
  {
    if ls != [] {
      StepKeepsConfig(s, ls[0]);
      RunKeepsConfig(Step(s, ls[0]), ls[1..]);
    }
  }

  // ---------------------------------------------------------------- which way a request goes

  /** The guards of prepareSend and prepareReceive: the request fits the pool, or every other one needs a region. */
  predicate UsesRegion(s: State, size: nat) {
    (s.hasPool && size <= s.pl.size) || s.requiresMR
  }

  lemma ChoiceOfView(v: View)
    requires CallOk(v) && v.call.op != Pending
    ensures v.call.region.Some? <==> Fits(v) || v.strict
  {
    assert OpPart(v) && ChoicePart(v) && CtxPart(v);
  }

  /** A completed call went through a region exactly if the configuration at the start and its size say so. */
  lemma RegionIsTheGuards(s0: State, ls: Schedule, k: CallId)
    requires Start(s0) && Runnable(s0, ls) && k in Exec(s0, ls).calls && Exec(s0, ls).calls[k].op != Pending
    ensures Exec(s0, ls).calls[k].region.Some? <==> UsesRegion(s0, |Exec(s0, ls).calls[k].payload|)
  {
    RunKeepsInv(s0, ls);
    RunKeepsConfig(s0, ls);
    assert CallOk(ViewOf(Exec(s0, ls), k));
    ChoiceOfView(ViewOf(Exec(s0, ls), k));
  }

  /**
   A receive that resolved without error shows its message exactly if the guards send it the way without a region, or
   the slice happened to hold those bytes before.  The guards are known before the call: whether there is a pool, its
   size, the length of the slice, and whether the domain requires registration.
   */
  lemma FilledExactlyByTheGuards(s0: State, ls: Schedule, k: CallId)
    requires Start(s0) && Runnable(s0, ls) && k in Exec(s0, ls).calls
    requires Exec(s0, ls).calls[k].kind == Receive
    requires Exec(s0, ls).calls[k].op != Pending && !Exec(s0, ls).calls[k].op.failed
    ensures var s := Exec(s0, ls);
            var before := s.calls[k].payload;
            && s.calls[k].got.Some? && FromOk(s, k) && k in s.cx.ctxs && s.cx.ctxs[k].sink.Some?
            && var msg := s.calls[k].got.value;
               Carries(s.cx.ctxs[k].sink.value, msg) <==> !UsesRegion(s0, |before|) || Carries(before, msg)
  {
    RegionIsTheGuards(s0, ls, k);
    FilledExactlyWithoutRegion(s0, ls, k);
  }

  // ---------------------------------------------------------------- the reported length

  lemma LengthOfView(v: View)
    requires CallOk(v) && v.call.op != Pending
    ensures v.call.length == Some(|v.call.payload|)
  {
    assert DataPart(v);
  }

  /**
   The length of a result is the length of the buffer that was posted, for sends and for receives.  For a receive
   that resolved without error it is the length of the message exactly if the message fills the buffer.
   */
  lemma LengthIsThePostedSize(s0: State, ls: Schedule, k: CallId)
    requires Start(s0) && Runnable(s0, ls) && k in Exec(s0, ls).calls && Exec(s0, ls).calls[k].op != Pending
    ensures var c := Exec(s0, ls).calls[k];
            && c.length == Some(|c.payload|)
            && (c.kind == Receive && !c.op.failed ==>
                  && c.got.Some? && FromOk(Exec(s0, ls), k) && |c.got.value| <= c.length.value
                  && (c.length == Some(|c.got.value|) <==> |c.got.value| == |c.payload|))
  {
    RunKeepsInv(s0, ls);
    var s := Exec(s0, ls);
    assert CallOk(ViewOf(s, k)) && FromOk(s, k);
    LengthOfView(ViewOf(s, k));
    if s.calls[k].kind == Receive && !s.calls[k].op.failed {
      CompletedReceiveGot(ViewOf(s, k));
      MessageFits(ViewOf(s, k));
    }
  }

  lemma MessageFits(v: View)
    requires CallOk(v) && v.call.kind == Receive && v.call.got.Some?
    ensures |v.call.got.value| <= |v.call.payload|
  {
    assert DataPart(v);
  }
}
