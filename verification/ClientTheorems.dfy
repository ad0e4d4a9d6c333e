/** What holds in every run of the client. */
module ClientTheorems {
  import opened Basics
  import C = ContextProtocol
  import P = PoolProtocol
  import opened ClientProtocol
  import opened ClientInvariant
  import opened ClientPreservation

  type Schedule = seq<Label>

  ghost predicate Runnable(s: State, ls: Schedule)
    decreases ls
  {
    ls == [] || (Enabled(s, ls[0]) && Runnable(Step(s, ls[0]), ls[1..]))
  }

  ghost function Exec(s: State, ls: Schedule): State
    requires Runnable(s, ls)
    decreases ls
  {
    if ls == [] then s else Exec(Step(s, ls[0]), ls[1..])
  }

  /** A freshly dialled client. */
  ghost predicate Start(s: State) {
    s == Init(s.hasPool, s.requiresMR, s.injectLimit, s.pl.capacity, s.pl.size)
  }

  lemma {:induction false} ExecKeepsInv(s: State, ls: Schedule)
    requires Inv(s) && Runnable(s, ls)
    ensures Inv(Exec(s, ls))
    decreases ls
  {
    if ls != [] {
      StepKeepsInv(s, ls[0]);
      ExecKeepsInv(Step(s, ls[0]), ls[1..]);
    }
  }

  lemma RunKeepsInv(s: State, ls: Schedule)
    requires Start(s) && Runnable(s, ls)
    ensures Inv(Exec(s, ls))
  {
    ExecKeepsInv(s, ls);
  }

  // ---------------------------------------------------------------- regions and in-flight bytes

  /**
   The release closure of a call has started: a caller of the pool API holds its region no longer for the operation.
   */
  predicate ReleaseStarted(c: Call) {
    c.pc == GivingBack || c.pc == Failed || c.op.Freeing? || c.op.Done?
  }

  /**
   Until its release starts, the region of a call is open and in the hands of that call alone: no other call
   has it, the pool channel does not contain it and the closing drain does not hold it.
   */
  lemma RegionIsExclusive(s0: State, ls: Schedule, k: CallId)
    requires Start(s0) && Runnable(s0, ls) && k in Exec(s0, ls).calls
    requires Exec(s0, ls).calls[k].region.Some? && !ReleaseStarted(Exec(s0, ls).calls[k])
    ensures var s := Exec(s0, ls);
            var r := s.calls[k].region.value;
            && r in s.pl.regions && s.pl.regions[r].open
            && r !in s.pl.chan && s.pl.drain != P.Holding(r)
            && (forall j :: P.Has(s.pl, j, r) ==> j == k)
            && (forall j :: j in s.calls && j != k && !ReleaseStarted(s.calls[j]) ==> s.calls[j].region != Some(r))
  {
    RunKeepsInv(s0, ls);
    var s := Exec(s0, ls);
    var r := s.calls[k].region.value;
    assert CallOk(ViewOf(s, k)) && RegionPart(ViewOf(s, k));
    assert P.HandOk(s.pl, k);
    forall j | j in s.calls && j != k && !ReleaseStarted(s.calls[j]) ensures s.calls[j].region != Some(r) {
      assert CallOk(ViewOf(s, j)) && RegionPart(ViewOf(s, j));
    }
  }

  /**
   As long as a send is in flight the memory the provider reads, region or staging buffer, carries the payload
   as it was at the call, however the caller's slice has changed since.
   */
  lemma InFlightBytesAreThePayload(s0: State, ls: Schedule, k: CallId)
    requires Start(s0) && Runnable(s0, ls) && k in Exec(s0, ls).calls
    requires Exec(s0, ls).calls[k].kind == Send && InFlight(Exec(s0, ls), k)
    ensures Source(ViewOf(Exec(s0, ls), k)) == Some(Exec(s0, ls).calls[k].payload)
  {
    RunKeepsInv(s0, ls);
    var v := ViewOf(Exec(s0, ls), k);
    assert CallOk(v);
    InFlightHasSource(v);
    SourceIsPayload(v);
  }

  lemma InFlightHasSource(v: View)
    requires CallOk(v) && v.call.kind == Send && Live(v) && v.ctx.value.entry == C.Absent
    ensures Source(v).Some?
  {
  }

  /**
   Whatever path a send takes, inject, pooled region, own region or staging buffer, the provider has read from it
   at most one message, that message is the payload at call time, a call that returned an error gave none, and a
   call that completed without error gave one.
   */
  lemma ProviderGetsThePayload(s0: State, ls: Schedule, k: CallId)
    requires Start(s0) && Runnable(s0, ls) && k in Exec(s0, ls).calls && Exec(s0, ls).calls[k].kind == Send
    ensures var s := Exec(s0, ls);
            && (k in s.wire ==> s.wire[k] == s.calls[k].payload && Took(s.calls[k].pc))
            && (s.calls[k].pc == Failed ==> k !in s.wire)
            && (s.calls[k].op.Done? && !s.calls[k].op.failed ==> k in s.wire)
  {
    RunKeepsInv(s0, ls);
    SendIsServed(Exec(s0, ls), k);
  }

  lemma SendIsServed(s: State, k: CallId)
    requires Inv(s) && k in s.calls && s.calls[k].kind == Send
    ensures k in s.wire ==> s.wire[k] == s.calls[k].payload && Took(s.calls[k].pc)
    ensures s.calls[k].op.Done? && !s.calls[k].op.failed ==> k in s.wire
  {
    assert CallOk(ViewOf(s, k));
    SentOnce(ViewOf(s, k));
  }

  lemma SentOnce(v: View)
    requires CallOk(v) && v.call.kind == Send
    ensures v.sent.Some? ==> v.sent.value == v.call.payload && Took(v.call.pc)
    ensures v.call.op != Pending && !v.call.op.failed ==> v.sent.Some?
  {
    assert DataPart(v) && OpPart(v);
  }

  // ---------------------------------------------------------------- end to end

  /**
   A receive without a region that resolves without error got a message, and from the moment its result is stored, so
   before `done` is closed, the first bytes of the caller's slice are that message.  If it came from a send of the same
   client, it is the payload of that send as it was when the send was called.
   */
  lemma RoundTrip(s0: State, ls: Schedule, k: CallId)
    requires Start(s0) && Runnable(s0, ls) && k in Exec(s0, ls).calls
    requires Exec(s0, ls).calls[k].kind == Receive && Exec(s0, ls).calls[k].region == None
    requires Exec(s0, ls).calls[k].op != Pending && !Exec(s0, ls).calls[k].op.failed
    ensures var s := Exec(s0, ls);
            && s.calls[k].got.Some? && k in s.cx.ctxs && s.cx.ctxs[k].sink.Some?
            && |s.cx.ctxs[k].sink.value| == |s.calls[k].payload|
            && Carries(s.cx.ctxs[k].sink.value, s.calls[k].got.value)
            && FromOk(s, k)
  {
    RunKeepsInv(s0, ls);
    var s := Exec(s0, ls);
    assert CallOk(ViewOf(s, k)) && FromOk(s, k);
    CompletedReceiveShows(ViewOf(s, k));
  }

  lemma CompletedReceiveShows(v: View)
    requires CallOk(v) && v.call.kind == Receive && v.call.region == None && v.call.op != Pending && !v.call.op.failed
    ensures v.call.got.Some? && v.ctx.Some? && v.ctx.value.sink.Some? && |v.ctx.value.sink.value| == |v.call.payload|
    ensures Carries(v.ctx.value.sink.value, v.call.got.value)
  {
    assert OpPart(v) && Live(v);
  }

  /**
   The same from client to client: if the message was read by the provider of another client, from any path of a send of
   that client, the receiver's slice carries the payload of that send as it was when the send was called.
   */
  lemma RoundTripBetweenClients(s0: State, ls: Schedule, j: CallId, r0: State, ms: Schedule, k: CallId)
    requires Start(s0) && Runnable(s0, ls) && j in Exec(s0, ls).calls && Exec(s0, ls).calls[j].kind == Send
    requires Start(r0) && Runnable(r0, ms) && k in Exec(r0, ms).calls
    requires Exec(r0, ms).calls[k].kind == Receive && Exec(r0, ms).calls[k].region == None
    requires Exec(r0, ms).calls[k].op != Pending && !Exec(r0, ms).calls[k].op.failed
    requires j in Exec(s0, ls).wire && Exec(r0, ms).calls[k].got == Some(Exec(s0, ls).wire[j])
    ensures var r := Exec(r0, ms);
            k in r.cx.ctxs && r.cx.ctxs[k].sink.Some? && Carries(r.cx.ctxs[k].sink.value, Exec(s0, ls).calls[j].payload)
  {
    ProviderGetsThePayload(s0, ls, j);
    RoundTrip(r0, ms, k);
  }

  /**
   The region path is different: a receive that went through a region completes, with or without error, and
   the caller's slice still has exactly the bytes it had at the call.
   */
  lemma RegionReceiveDoesNotFill(s0: State, ls: Schedule, k: CallId)
    requires Start(s0) && Runnable(s0, ls) && k in Exec(s0, ls).calls
    requires Exec(s0, ls).calls[k].kind == Receive && Exec(s0, ls).calls[k].region.Some?
    requires Exec(s0, ls).calls[k].op != Pending
    ensures k in Exec(s0, ls).cx.ctxs && Exec(s0, ls).cx.ctxs[k].sink == Some(Exec(s0, ls).calls[k].payload)
  {
    RunKeepsInv(s0, ls);
    var v := ViewOf(Exec(s0, ls), k);
    assert CallOk(v) && OpPart(v);
  }

  /**
   So a receive that resolved without error shows its message exactly if the request went without a region, or if the
   slice happened to hold those bytes before.
   */
  lemma FilledExactlyWithoutRegion(s0: State, ls: Schedule, k: CallId)
    requires Start(s0) && Runnable(s0, ls) && k in Exec(s0, ls).calls
    requires Exec(s0, ls).calls[k].kind == Receive
    requires Exec(s0, ls).calls[k].op != Pending && !Exec(s0, ls).calls[k].op.failed
    ensures var s := Exec(s0, ls);
            && s.calls[k].got.Some? && FromOk(s, k) && k in s.cx.ctxs && s.cx.ctxs[k].sink.Some?
            && var msg := s.calls[k].got.value;
               Carries(s.cx.ctxs[k].sink.value, msg) <==> s.calls[k].region == None || Carries(s.calls[k].payload, msg)
  {
    RunKeepsInv(s0, ls);
    var s := Exec(s0, ls);
    assert CallOk(ViewOf(s, k)) && FromOk(s, k);
    CompletedReceiveGot(ViewOf(s, k));
    if s.calls[k].region == None { RoundTrip(s0, ls, k); } else { RegionReceiveDoesNotFill(s0, ls, k); }
  }

  lemma CompletedReceiveGot(v: View)
    requires CallOk(v) && v.call.kind == Receive && v.call.op != Pending && !v.call.op.failed
    ensures v.call.got.Some?
  {
    assert OpPart(v) && Live(v);
  }

  // ---------------------------------------------------------------- each operation once

  /** How far an operation is. */
  function OpRank(op: Op): nat {
    match op
    case Pending => 0
    case Stored(_) => 1
    case Tallied(_) => 2
    case Freeing(_) => 3
    case Done(_) => 4
  }

  predicate Later(c: Call, d: Call) {
    && d.kind == c.kind && d.payload == c.payload
    && OpRank(c.op) <= OpRank(d.op) && (c.op != Pending ==> d.op.failed == c.op.failed && d.length == c.length)
    && (ReleaseStarted(c) ==> ReleaseStarted(d))
    && (c.dropped ==> d.dropped)
  }

  /** No call is forgotten, and each is at the same point or later. */
  ghost predicate AllLater(m: map<CallId, Call>, n: map<CallId, Call>) {
    forall k {:trigger n[k]} :: k in m ==> k in n && Later(m[k], n[k])
  }

  /** The record of one call that a step changes, with the new value. */
  function Moved(s: State, l: Label): Option<(CallId, Call)>
    requires Enabled(s, l)
  {
    match l
    case Prepare(a) => MovedByPrepare(s, a)
    case Post(a) => MovedByPost(s, a)
    case Undo(a) => MovedByUndo(s, a)
    case Net(a) => MovedByNet(s, a)
    case Dispatch(a) => MovedByDispatch(s, a)
    case Shut(_) => None
  }

  function To(s: State, k: CallId, pc: Pc): Option<(CallId, Call)>
    requires k in s.calls
  {
    Some((k, s.calls[k].(pc := pc)))
  }

  function MovedByPrepare(s: State, l: PrepareStep): Option<(CallId, Call)>
    requires CanPrepare(s, l)
  {
    match l
    case Begin(k, kind, payload) => Some((k, NewCall(kind, payload)))
    case Admit(k) => To(s, k, Admitting)
    case Miss(k) => None
    case GetRegion(k, p) => Some((k, s.calls[k].(pc := Filling, region := Fetched(s, p))))
    case NoRegion(k) => To(s, k, Ready)
    case Fill(k) => To(s, k, Ready)
    case ProvisionFails(k) => To(s, k, Failing)
  }

  function MovedByPost(s: State, l: PostStep): Option<(CallId, Call)>
    requires CanPost(s, l)
  {
    match l
    case Mint(k, a) => To(s, k, Minting)
    case Store(k) => To(s, k, Registered)
    case Inject(k) => To(s, k, Injected)
    case Ensure(k, a) => To(s, k, Buffered)
    case Stage(k) => To(s, k, Staged)
    case Accept(k) => To(s, k, Accepted)
    case Count(k) => To(s, k, Counted)
    case Attach(k) => To(s, k, Returned)
  }

  function MovedByUndo(s: State, l: UndoStep): Option<(CallId, Call)>
    requires CanUndo(s, l)
  {
    match l
    case Fail(k) => To(s, k, Failing)
    case SwapRelease(k) => To(s, k, if s.calls[k].pc == Injected then InjectUndoing else Undoing)
    case CtxStep(k, c) => None
    case GiveBack(k) => To(s, k, GivingBack)
    case PoolStep(k, p) => None
    case EndFail(k) => To(s, k, Failed)
    case InjectCount(k) => To(s, k, InjectPosted)
    case InjectComplete(k) => Some((k, Resulting(s.calls[k], false).(pc := InjectCounted)))
    case InjectReturn(k) => To(s, k, InjectReturned)
  }

  function MovedByNet(s: State, l: NetStep): Option<(CallId, Call)>
    requires CanNet(s, l)
  {
    match l
    case Scribble(k, data) => Some((k, s.calls[k].(user := data)))
    case Capture(k) => None
    case Deliver(k, msg, from) => Some((k, s.calls[k].(got := Some(msg), from := from)))
  }

  function MovedByDispatch(s: State, l: DispatchStep): Option<(CallId, Call)>
    requires CanDispatch(s, l)
  {
    match l
    case LoadValue(k) =>
      if s.calls[k].pc == Returned then None else Some((k, s.calls[k].(dropped := true)))
    case StoreResult(k) => Some((k, Resulting(s.calls[k], s.disp.failed)))
    case Tally(k) => Some((k, s.calls[k].(op := Tallied(s.calls[k].op.failed))))
    case Free(k) => Some((k, s.calls[k].(op := Freeing(s.calls[k].op.failed))))
    case Finish(k) => Some((k, s.calls[k].(op := Done(s.calls[k].op.failed))))
    case _ => None
  }

  function After(s: State, m: Option<(CallId, Call)>): map<CallId, Call> {
    match m
    case None => s.calls
    case Some(p) => s.calls[p.0 := p.1]
  }

  lemma PrepareMoves(s: State, l: PrepareStep)
    requires CanPrepare(s, l)
    ensures DoPrepare(s, l).calls == After(s, MovedByPrepare(s, l))
  {
    match l
    case Admit(k) => PartsLeaveCalls(s, C.Store(k), P.Admit(k));
    case Miss(k) => PartsLeaveCalls(s, C.Store(k), P.Miss(k));
    case GetRegion(k, p) => GetRegionMoves(s, k, p);
    case Fill(k) => FillMoves(s, k);
    case ProvisionFails(k) => PartsLeaveCalls(s, C.Store(k), P.ProvisionFails(k));
    case _ =>
  }

  lemma GetRegionMoves(s: State, k: CallId, p: P.Label)
    requires k in s.calls
    ensures DoGetRegion(s, k, p).calls == s.calls[k := s.calls[k].(pc := Filling, region := Fetched(s, p))]
  {
  }

  lemma FillMoves(s: State, k: CallId)
    requires k in s.calls
    ensures DoFill(s, k).calls == s.calls[k := s.calls[k].(pc := Ready)]
  {
    var t := Pool(s, P.Write(k, s.calls[k].user));
    PartsLeaveCalls(s, C.Store(k), P.Write(k, s.calls[k].user));
    assert Go(t, k, Ready).calls == t.calls[k := t.calls[k].(pc := Ready)];
  }

  /** The steps of a posting call that are steps of its context. */
  predicate OnContext(l: PostStep) {
    l.Mint? || l.Store? || l.Ensure? || l.Accept?
  }

  lemma ContextPostMoves(s: State, l: PostStep)
    requires CanPost(s, l) && OnContext(l)
    ensures DoPost(s, l).calls == After(s, MovedByPost(s, l))
  {
    match l
    case Mint(k, a) => ContextGoMoves(s, C.Mint(k, a), k, Minting);
    case Store(k) => ContextGoMoves(s, C.Store(k), k, Registered);
    case Ensure(k, a) => ContextGoMoves(s, C.Ensure(k, |s.calls[k].payload|, a), k, Buffered);
    case Accept(k) => ContextGoMoves(s, C.Accept(k), k, Accepted);
  }

  lemma ContextGoMoves(s: State, c: C.Label, k: CallId, pc: Pc)
    requires k in s.calls
    ensures Go(Ctx(s, c), k, pc).calls == s.calls[k := s.calls[k].(pc := pc)]
  {
    PartsLeaveCalls(s, c, P.ClosePool);
  }

  lemma PostMoves(s: State, l: PostStep)
    requires CanPost(s, l)
    ensures DoPost(s, l).calls == After(s, MovedByPost(s, l))
  {
    match l
    case Inject(k) => assert DoCapture(s, k).calls == s.calls;
    case Stage(k) => StageMoves(s, k);
    case Count(k) => assert CountPost(Go(s, k, Counted), s.calls[k].kind).calls == Go(s, k, Counted).calls;
    case Attach(k) =>
    case _ => ContextPostMoves(s, l);
  }

  lemma StageMoves(s: State, k: CallId)
    requires k in s.calls
    ensures DoStage(s, k).calls == Go(s, k, Staged).calls
  {
  }

  /** Steps of the two parts leave the calls alone. */
  lemma PartsLeaveCalls(s: State, c: C.Label, p: P.Label)
    ensures Ctx(s, c).calls == s.calls && Pool(s, p).calls == s.calls
  {
  }

  lemma GiveBackMoves(s: State, k: CallId)
    requires k in s.calls
    ensures Released(s, k).calls == s.calls
  {
    PartsLeaveCalls(s, C.Store(k), Closure(s, k));
  }

  lemma UndoMoves(s: State, l: UndoStep)
    requires CanUndo(s, l)
    ensures DoUndo(s, l).calls == After(s, MovedByUndo(s, l))
  {
    match l
    case SwapRelease(k) => PartsLeaveCalls(s, C.SwapRelease(k), P.ClosePool);
    case CtxStep(k, c) => PartsLeaveCalls(s, c, P.ClosePool);
    case PoolStep(k, p) => PartsLeaveCalls(s, C.Store(k), p);
    case GiveBack(k) => GiveBackMoves(s, k);
    case _ =>
  }

  lemma DeliverMoves(s: State, k: CallId, msg: seq<Byte>, from: Option<CallId>)
    requires k in s.calls
    ensures DoDeliver(s, k, msg, from).calls == s.calls[k := s.calls[k].(got := Some(msg), from := from)]
  {
    PartsLeaveCalls(s, C.Write(k, msg), P.Write(k, msg));
  }

  lemma NetMoves(s: State, l: NetStep)
    requires CanNet(s, l)
    ensures DoNet(s, l).calls == After(s, MovedByNet(s, l))
  {
    match l
    case Scribble(k, data) =>
    case Capture(k) => assert DoCapture(s, k).calls == s.calls;
    case Deliver(k, msg, from) => DeliverMoves(s, k, msg, from);
  }

  lemma LookupMoves(s: State, k: CallId, failed: bool)
    ensures DoLookup(s, k, failed).calls == s.calls
  {
    PartsLeaveCalls(s, C.Lookup(k), P.ClosePool);
  }

  lemma CompletionMoves(s: State, l: DispatchStep)
    requires CanDispatch(s, l) && (l.LoadValue? || l.StoreResult? || l.Tally? || l.Free? || l.Finish?)
    ensures DoDispatch(s, l).calls == After(s, MovedByDispatch(s, l))
  {
    match l
    case Free(k) => GiveBackMoves(s, k);
    case _ =>
  }

  lemma DispatchMoves(s: State, l: DispatchStep)
    requires CanDispatch(s, l)
    ensures DoDispatch(s, l).calls == After(s, MovedByDispatch(s, l))
  {
    match l
    case ReadEntry(k, failed) => PartsLeaveCalls(s, C.ReadEntry(k), P.ClosePool);
    case Lookup(k) => LookupMoves(s, k, s.disp.failed);
    case SwapResolve(k) => PartsLeaveCalls(s, C.SwapResolve(k), P.ClosePool);
    case RecordError(e) =>
    case Exit =>
    case _ => CompletionMoves(s, l);
  }

  /** Every step changes at most the record of one call. */
  lemma StepMovesOne(s: State, l: Label)
    requires Enabled(s, l)
    ensures Step(s, l).calls == After(s, Moved(s, l))
  {
    match l
    case Prepare(a) => PrepareMoves(s, a);
    case Post(a) => PostMoves(s, a);
    case Undo(a) => UndoMoves(s, a);
    case Net(a) => NetMoves(s, a);
    case Dispatch(a) => DispatchMoves(s, a);
    case Shut(a) => assert DoShut(s, a).calls == s.calls;
  }

  /** An operation that has not been completed is pending wherever a completion may start. */
  lemma StillPending(v: View)
    requires CallOk(v)
    ensures v.call.pc == InjectPosted || v.role.Releases? || v.role.Stores? ==> v.call.op == Pending
    ensures v.call.pc == Failing || v.call.pc == Undoing ==> v.call.op == Pending
    ensures v.call.dropped ==> v.call.op == Pending
  {
    assert OpPart(v) && CtxPart(v);
  }

  /** The move of one call, if it is not the call's first, takes it to the same point or later. */
  predicate Onward(s: State, m: Option<(CallId, Call)>) {
    m.Some? && m.value.0 in s.calls ==> Later(s.calls[m.value.0], m.value.1)
  }

  lemma PrepareIsOnward(s: State, l: PrepareStep)
    requires CanPrepare(s, l)
    ensures Onward(s, MovedByPrepare(s, l))
  {
  }

  lemma PostIsOnward(s: State, l: PostStep)
    requires CanPost(s, l)
    ensures Onward(s, MovedByPost(s, l))
  {
  }

  lemma UndoIsOnward(s: State, l: UndoStep)
    requires CanUndo(s, l)
    requires l.InjectComplete? && l.k in s.calls ==> s.calls[l.k].op == Pending
    ensures Onward(s, MovedByUndo(s, l))
  {
  }

  lemma DispatchIsOnward(s: State, l: DispatchStep)
    requires CanDispatch(s, l)
    requires l.StoreResult? && l.k in s.calls ==> s.calls[l.k].op == Pending
    ensures Onward(s, MovedByDispatch(s, l))
  {
  }

  lemma PendingAt(s: State, k: CallId)
    requires Inv(s) && k in s.calls && (s.calls[k].pc == InjectPosted || RoleOf(s.disp, k).Stores?)
    ensures s.calls[k].op == Pending
  {
    assert CallOk(ViewOf(s, k));
    StillPending(ViewOf(s, k));
  }

  lemma MoveIsOnward(s: State, l: Label)
    requires Inv(s) && Enabled(s, l)
    ensures Onward(s, Moved(s, l))
  {
    match l
    case Prepare(a) => PrepareIsOnward(s, a);
    case Post(a) => PostIsOnward(s, a);
    case Undo(a) =>
      if a.InjectComplete? { PendingAt(s, a.k); }
      UndoIsOnward(s, a);
    case Dispatch(a) =>
      if a.StoreResult? { PendingAt(s, a.k); }
      DispatchIsOnward(s, a);
    case _ =>
  }

  lemma AfterIsLater(s: State, m: Option<(CallId, Call)>)
    requires Onward(s, m)
    ensures AllLater(s.calls, After(s, m))
  {
  }

  lemma StepIsLater(s: State, l: Label)
    requires Inv(s) && Enabled(s, l)
    ensures AllLater(s.calls, Step(s, l).calls)
  {
    StepMovesOne(s, l);
    MoveIsOnward(s, l);
    AfterIsLater(s, Moved(s, l));
  }
}
