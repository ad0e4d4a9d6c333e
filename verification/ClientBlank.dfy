/** A run in which a receive completes without error and shows its caller nothing. */
module ClientBlank {
  import opened Basics
  import C = ContextProtocol
  import P = PoolProtocol
  import opened ClientProtocol
  import opened ClientTheorems
  import opened ClientSteps

  function Token(): map<Addr, C.Block> { map[1 := C.Block(C.Token(0), [0])] }
  function Made(): C.Ctx { C.Ctx(1, NIL, None, C.Minted, C.Nobody, false, C.Absent, false, 0) }
  function Opened(): C.Ctx { Made().(stage := C.Open) }
  function Tokens(): map<Addr, C.Block> { Token()[2 := C.Block(C.Token(1), [0])] }
  function Alone(): C.State { C.State(Token(), map[1 := 0], map[0 := Opened()], map[], 0) }
  function Waiting(): C.Ctx { Opened().(ptr := 2, sink := Some([0, 0]), posted := true) }
  function Removed(): C.Ctx { Waiting().(entry := C.Spent(Some(1)), stage := C.Detached, winner := C.Resolver) }

  function Regions(regions: map<P.RegionId, P.Region>, callers: map<P.Caller, P.Point>): P.State {
    P.State(0, 0, false, [], regions, callers, P.Off, {})
  }

  function NoRegions(): P.State { Regions(map[], map[]) }
  function Blank(): P.State { Regions(map[0 := P.Region(P.Zeros(1), true)], map[0 := P.Using(0)]) }
  function Filled(): P.State { Regions(map[0 := P.Region([7], true)], map[0 := P.Using(0)]) }
  function Beside(): P.State {
    Regions(Filled().regions[1 := P.Region(P.Zeros(2), true)], map[0 := P.Using(0), 1 := P.Using(1)])
  }
  function Served(): P.State {
    Regions(Filled().regions[1 := P.Region([7, 0], true)], map[0 := P.Using(0), 1 := P.Using(1)])
  }
  function Leaving(): P.State { Regions(Served().regions, map[0 := P.Using(0), 1 := P.Closing(1)]) }
  function Departed(): P.State { Regions(Filled().regions[1 := P.Region([], false)], map[0 := P.Using(0)]) }

  /** A client whose domain requires registration, without a pool, with an inject limit of one byte. */
  function Strict(): State {
    Init(false, true, 1, 0, 0)
  }

  function Pair(calls: map<CallId, Call>, cx: C.State, pl: P.State, wire: map<CallId, seq<Byte>>): State {
    Strict().(calls := calls, cx := cx, pl := pl, wire := wire)
  }

  function Sent(pc: Pc, region: Option<P.RegionId>): Call {
    NewCall(Send, [7]).(pc := pc, region := region)
  }

  function Received(pc: Pc, region: Option<P.RegionId>): Call {
    NewCall(Receive, [0, 0]).(pc := pc, region := region)
  }

  /** Both contexts registered. */
  function Two(x: C.Ctx): C.State {
    C.State(Tokens(), map[1 := 0, 2 := 1], map[0 := Opened(), 1 := x], map[], 0)
  }

  /** The receive's context out of the registry. */
  function After(live: map<Addr, C.Block>, x: C.Ctx): C.State {
    C.State(live, map[1 := 0], map[0 := Opened(), 1 := x], map[], 0)
  }

  /** The receive once the message has arrived. */
  function Arrived(): Call {
    Received(Returned, Some(1)).(got := Some([7]), from := Some(0))
  }

  function Reported(op: Op): Call {
    Arrived().(op := op, length := Some(2))
  }

  function Late(c: Call, cx: C.State, pl: P.State, d: Dispatcher, st: Stats): State {
    Pair(map[0 := Sent(Injected, Some(0)), 1 := c], cx, pl, map[0 := [7]]).(disp := d, receives := st)
  }

  /** A send by inject of one byte, and a receive of two through a region that gets it, state by state. */
  function SendBegun(): State {
    Pair(map[0 := Sent(Entered, None)], C.Init(), NoRegions(), map[])
  }

  function SendHasRegion(): State {
    Pair(map[0 := Sent(Filling, Some(0))], C.Init(), Blank(), map[])
  }

  function SendFilled(): State {
    Pair(map[0 := Sent(Ready, Some(0))], C.Init(), Filled(), map[])
  }

  function SendMinted(): State {
    Pair(map[0 := Sent(Minting, Some(0))], C.State(Token(), map[], map[0 := Made()], map[], 0), Filled(), map[])
  }

  function SendRegistered(): State {
    Pair(map[0 := Sent(Registered, Some(0))], Alone(), Filled(), map[])
  }

  function SendInjected(): State {
    Pair(map[0 := Sent(Injected, Some(0))], Alone(), Filled(), map[0 := [7]])
  }

  function ReceiveBegun(): State {
    Pair(map[0 := Sent(Injected, Some(0)), 1 := Received(Entered, None)], Alone(), Filled(), map[0 := [7]])
  }

  function ReceiveHasRegion(): State {
    Pair(map[0 := Sent(Injected, Some(0)), 1 := Received(Filling, Some(1))], Alone(), Beside(), map[0 := [7]])
  }

  function ReceiveReady(): State {
    Pair(map[0 := Sent(Injected, Some(0)), 1 := Received(Ready, Some(1))], Alone(), Beside(), map[0 := [7]])
  }

  function ReceiveMinted(): State {
    Pair(map[0 := Sent(Injected, Some(0)), 1 := Received(Minting, Some(1))],
         C.State(Tokens(), map[1 := 0], map[0 := Opened(), 1 := Made().(ptr := 2)], map[], 0), Beside(), map[0 := [7]])
  }

  function ReceiveRegistered(): State {
    Pair(map[0 := Sent(Injected, Some(0)), 1 := Received(Registered, Some(1))], Two(Opened().(ptr := 2)), Beside(),
         map[0 := [7]])
  }

  function ReceiveStaged(): State {
    Pair(map[0 := Sent(Injected, Some(0)), 1 := Received(Staged, Some(1))], Two(Waiting().(posted := false)), Beside(),
         map[0 := [7]])
  }

  function ReceiveAccepted(): State {
    Pair(map[0 := Sent(Injected, Some(0)), 1 := Received(Accepted, Some(1))], Two(Waiting()), Beside(), map[0 := [7]])
  }

  function ReceiveCounted(): State {
    Pair(map[0 := Sent(Injected, Some(0)), 1 := Received(Counted, Some(1))], Two(Waiting()), Beside(),
         map[0 := [7]]).(receives := Stats(1, 0, 0))
  }

  function ReceiveAttached(): State {
    Late(Received(Returned, Some(1)), Two(Waiting()), Beside(), Polling, Stats(1, 0, 0))
  }

  function MessageArrived(): State {
    Late(Arrived(), Two(Waiting()), Served(), Polling, Stats(1, 0, 0))
  }

  function EntryRead(): State {
    Late(Arrived(), Two(Waiting().(entry := C.Read)), Served(), Holding(1, false), Stats(1, 0, 0))
  }

  function EntryLookedUp(): State {
    Late(Arrived(), After(Tokens(), Waiting().(entry := C.Spent(Some(1)), loaded := true)), Served(),
         Swapping(1, false), Stats(1, 0, 0))
  }

  function ReleaseWon(): State {
    Late(Arrived(), After(Tokens(), Removed()), Served(), Releasing(1, false), Stats(1, 0, 0))
  }

  function CallbacksRun(): State {
    Late(Arrived(), After(Tokens(), Removed().(stage := C.Called, called := 1)), Served(), Releasing(1, false),
         Stats(1, 0, 0))
  }

  function CopyBackSkipped(): State {
    Late(Arrived(), After(Tokens(), Removed().(stage := C.Copied, called := 1)), Served(), Releasing(1, false),
         Stats(1, 0, 0))
  }

  function NothingUnstaged(): State {
    Late(Arrived(), After(Tokens(), Removed().(stage := C.Unstaged, called := 1)), Served(), Releasing(1, false),
         Stats(1, 0, 0))
  }

  function TokenFreed(): State {
    Late(Arrived(), After(Token(), Removed().(stage := C.Freed, called := 1)), Served(), Releasing(1, false),
         Stats(1, 0, 0))
  }

  function OperationFound(): State {
    Late(Arrived(), After(Token(), Removed().(stage := C.Freed, called := 1)), Served(), Storing(1, false),
         Stats(1, 0, 0))
  }

  function ResultStored(): State {
    Late(Reported(Stored(false)), After(Token(), Removed().(stage := C.Freed, called := 1)), Served(), Completing(1),
         Stats(1, 0, 0))
  }

  function HandlersTold(): State {
    Late(Reported(Tallied(false)), After(Token(), Removed().(stage := C.Freed, called := 1)), Served(), Completing(1),
         Stats(1, 1, 0))
  }

  function RegionLeaving(): State {
    Late(Reported(Freeing(false)), After(Token(), Removed().(stage := C.Freed, called := 1)), Leaving(), Completing(1),
         Stats(1, 1, 0))
  }

  function RegionClosed(): State {
    Late(Reported(Freeing(false)), After(Token(), Removed().(stage := C.Freed, called := 1)), Departed(), Completing(1),
         Stats(1, 1, 0))
  }

  function ReceiveDone(): State {
    Late(Reported(Done(false)), After(Token(), Removed().(stage := C.Freed, called := 1)), Departed(), Polling,
         Stats(1, 1, 0))
  }

  lemma ReachSendBegun() returns (ls: Schedule)
    ensures End(Strict(), ls) == Some(SendBegun())
  {
    ls := [];
    ls := Next(Strict(), ls, Strict(), Prepare(Begin(0, Send, [7])), SendBegun());
  }

  lemma ReachSendHasRegion() returns (ls: Schedule)
    ensures End(Strict(), ls) == Some(SendHasRegion())
  {
    ls := ReachSendBegun();
    GetRegionLeads(SendBegun(), 0, P.Register(0, 0, 1), SendHasRegion().pl, SendHasRegion());
    ls := Next(Strict(), ls, SendBegun(), Prepare(GetRegion(0, P.Register(0, 0, 1))), SendHasRegion());
  }

  lemma ReachSendFilled() returns (ls: Schedule)
    ensures End(Strict(), ls) == Some(SendFilled())
  {
    ls := ReachSendHasRegion();
    assert Overlay(P.Zeros(1), [7]) == [7];
    assert SendFilled() == Step(SendHasRegion(), Prepare(Fill(0)));
    ls := Next(Strict(), ls, SendHasRegion(), Prepare(Fill(0)), SendFilled());
  }

  lemma ReachSendMinted() returns (ls: Schedule)
    ensures End(Strict(), ls) == Some(SendMinted())
  {
    ls := ReachSendFilled();
    ContextLeads(SendFilled(), 0, 1, SendMinted().cx, SendMinted());
    ls := Next(Strict(), ls, SendFilled(), Post(Mint(0, 1)), SendMinted());
  }

  lemma ReachSendRegistered() returns (ls: Schedule)
    ensures End(Strict(), ls) == Some(SendRegistered())
  {
    ls := ReachSendMinted();
    StoreLeads(SendMinted(), 0, SendRegistered().cx, SendRegistered());
    ls := Next(Strict(), ls, SendMinted(), Post(Store(0)), SendRegistered());
  }

  lemma ReachSendInjected() returns (ls: Schedule)
    ensures End(Strict(), ls) == Some(SendInjected())
  {
    ls := ReachSendRegistered();
    assert [7][..1] == [7 as Byte];
    InjectLeads(SendRegistered(), 0, [7], SendInjected());
    ls := Next(Strict(), ls, SendRegistered(), Post(Inject(0)), SendInjected());
  }

  lemma ReachReceiveBegun() returns (ls: Schedule)
    ensures End(Strict(), ls) == Some(ReceiveBegun())
  {
    ls := ReachSendInjected();
    ls := Next(Strict(), ls, SendInjected(), Prepare(Begin(1, Receive, [0, 0])), ReceiveBegun());
  }

  lemma ReachReceiveHasRegion() returns (ls: Schedule)
    ensures End(Strict(), ls) == Some(ReceiveHasRegion())
  {
    ls := ReachReceiveBegun();
    GetRegionLeads(ReceiveBegun(), 1, P.Register(1, 1, 2), ReceiveHasRegion().pl, ReceiveHasRegion());
    ls := Next(Strict(), ls, ReceiveBegun(), Prepare(GetRegion(1, P.Register(1, 1, 2))), ReceiveHasRegion());
  }

  lemma ReachReceiveReady() returns (ls: Schedule)
    ensures End(Strict(), ls) == Some(ReceiveReady())
  {
    ls := ReachReceiveHasRegion();
    assert ReceiveReady() == Step(ReceiveHasRegion(), Prepare(Fill(1)));
    ls := Next(Strict(), ls, ReceiveHasRegion(), Prepare(Fill(1)), ReceiveReady());
  }

  lemma ReachReceiveMinted() returns (ls: Schedule)
    ensures End(Strict(), ls) == Some(ReceiveMinted())
  {
    ls := ReachReceiveReady();
    ContextLeads(ReceiveReady(), 1, 2, ReceiveMinted().cx, ReceiveMinted());
    ls := Next(Strict(), ls, ReceiveReady(), Post(Mint(1, 2)), ReceiveMinted());
  }

  lemma ReachReceiveRegistered() returns (ls: Schedule)
    ensures End(Strict(), ls) == Some(ReceiveRegistered())
  {
    ls := ReachReceiveMinted();
    StoreLeads(ReceiveMinted(), 1, ReceiveRegistered().cx, ReceiveRegistered());
    ls := Next(Strict(), ls, ReceiveMinted(), Post(Store(1)), ReceiveRegistered());
  }

  lemma ReachReceiveStaged() returns (ls: Schedule)
    ensures End(Strict(), ls) == Some(ReceiveStaged())
  {
    ls := ReachReceiveRegistered();
    StageLeads(ReceiveRegistered(), 1, C.SetCopyBack(1, [0, 0]), ReceiveStaged().cx, ReceiveStaged());
    ls := Next(Strict(), ls, ReceiveRegistered(), Post(Stage(1)), ReceiveStaged());
  }

  lemma ReachReceiveAccepted() returns (ls: Schedule)
    ensures End(Strict(), ls) == Some(ReceiveAccepted())
  {
    ls := ReachReceiveStaged();
    AcceptLeads(ReceiveStaged(), 1, ReceiveAccepted().cx, ReceiveAccepted());
    ls := Next(Strict(), ls, ReceiveStaged(), Post(Accept(1)), ReceiveAccepted());
  }

  lemma ReachReceiveCounted() returns (ls: Schedule)
    ensures End(Strict(), ls) == Some(ReceiveCounted())
  {
    ls := ReachReceiveAccepted();
    CountLeads(ReceiveAccepted(), 1, ReceiveCounted());
    ls := Next(Strict(), ls, ReceiveAccepted(), Post(Count(1)), ReceiveCounted());
  }

  lemma ReachReceiveAttached() returns (ls: Schedule)
    ensures End(Strict(), ls) == Some(ReceiveAttached())
  {
    ls := ReachReceiveCounted();
    AttachLeads(ReceiveCounted(), 1, ReceiveAttached());
    ls := Next(Strict(), ls, ReceiveCounted(), Post(Attach(1)), ReceiveAttached());
  }

  lemma ReachMessageArrived() returns (ls: Schedule)
    ensures End(Strict(), ls) == Some(MessageArrived())
  {
    ls := ReachReceiveAttached();
    assert Overlay(P.Zeros(2), [7]) == [7, 0];
    DeliverLeads(ReceiveAttached(), 1, [7], Some(0), MessageArrived().pl, MessageArrived());
    ls := Next(Strict(), ls, ReceiveAttached(), Net(Deliver(1, [7], Some(0))), MessageArrived());
  }

  lemma ReachEntryRead() returns (ls: Schedule)
    ensures End(Strict(), ls) == Some(EntryRead())
  {
    ls := ReachMessageArrived();
    ReadLeads(MessageArrived(), 1, false, EntryRead().cx, EntryRead());
    ls := Next(Strict(), ls, MessageArrived(), Dispatch(ReadEntry(1, false)), EntryRead());
  }

  lemma ReachEntryLookedUp() returns (ls: Schedule)
    ensures End(Strict(), ls) == Some(EntryLookedUp())
  {
    ls := ReachEntryRead();
    LookupLeads(EntryRead(), 1, false, 2, EntryLookedUp());
    ls := Next(Strict(), ls, EntryRead(), Dispatch(Lookup(1)), EntryLookedUp());
  }

  lemma ReachReleaseWon() returns (ls: Schedule)
    ensures End(Strict(), ls) == Some(ReleaseWon())
  {
    ls := ReachEntryLookedUp();
    SwapLeads(EntryLookedUp(), 1, false, ReleaseWon().cx, ReleaseWon());
    ls := Next(Strict(), ls, EntryLookedUp(), Dispatch(SwapResolve(1)), ReleaseWon());
  }

  lemma ReachCallbacksRun() returns (ls: Schedule)
    ensures End(Strict(), ls) == Some(CallbacksRun())
  {
    ls := ReachReleaseWon();
    ReleaseLeads(ReleaseWon(), 1, C.RunCallbacks(1), CallbacksRun().cx, CallbacksRun());
    ls := Next(Strict(), ls, ReleaseWon(), Undo(CtxStep(1, C.RunCallbacks(1))), CallbacksRun());
  }

  lemma ReachCopyBackSkipped() returns (ls: Schedule)
    ensures End(Strict(), ls) == Some(CopyBackSkipped())
  {
    ls := ReachCallbacksRun();
    ReleaseLeads(CallbacksRun(), 1, C.CopyBack(1), CopyBackSkipped().cx, CopyBackSkipped());
    ls := Next(Strict(), ls, CallbacksRun(), Undo(CtxStep(1, C.CopyBack(1))), CopyBackSkipped());
  }

  lemma ReachNothingUnstaged() returns (ls: Schedule)
    ensures End(Strict(), ls) == Some(NothingUnstaged())
  {
    ls := ReachCopyBackSkipped();
    ReleaseLeads(CopyBackSkipped(), 1, C.Unstage(1), NothingUnstaged().cx, NothingUnstaged());
    ls := Next(Strict(), ls, CopyBackSkipped(), Undo(CtxStep(1, C.Unstage(1))), NothingUnstaged());
  }

  lemma ReachTokenFreed() returns (ls: Schedule)
    ensures End(Strict(), ls) == Some(TokenFreed())
  {
    ls := ReachNothingUnstaged();
    FreeTokenLeads(NothingUnstaged(), 1, 2, TokenFreed());
    ls := Next(Strict(), ls, NothingUnstaged(), Undo(CtxStep(1, C.FreeToken(1))), TokenFreed());
  }

  lemma ReachOperationFound() returns (ls: Schedule)
    ensures End(Strict(), ls) == Some(OperationFound())
  {
    ls := ReachTokenFreed();
    LoadLeads(TokenFreed(), 1, false, OperationFound());
    ls := Next(Strict(), ls, TokenFreed(), Dispatch(LoadValue(1)), OperationFound());
  }

  lemma ReachResultStored() returns (ls: Schedule)
    ensures End(Strict(), ls) == Some(ResultStored())
  {
    ls := ReachOperationFound();
    StoreResultLeads(OperationFound(), 1, false, ResultStored());
    ls := Next(Strict(), ls, OperationFound(), Dispatch(StoreResult(1)), ResultStored());
  }

  lemma ReachHandlersTold() returns (ls: Schedule)
    ensures End(Strict(), ls) == Some(HandlersTold())
  {
    ls := ReachResultStored();
    TallyLeads(ResultStored(), 1, false, HandlersTold());
    ls := Next(Strict(), ls, ResultStored(), Dispatch(Tally(1)), HandlersTold());
  }

  lemma ReachRegionLeaving() returns (ls: Schedule)
    ensures End(Strict(), ls) == Some(RegionLeaving())
  {
    ls := ReachHandlersTold();
    FreeLeads(HandlersTold(), 1, false, 1, RegionLeaving());
    ls := Next(Strict(), ls, HandlersTold(), Dispatch(Free(1)), RegionLeaving());
  }

  lemma ReachRegionClosed() returns (ls: Schedule)
    ensures End(Strict(), ls) == Some(RegionClosed())
  {
    ls := ReachRegionLeaving();
    CloseLeads(RegionLeaving(), 1, 1, RegionClosed());
    ls := Next(Strict(), ls, RegionLeaving(), Undo(PoolStep(1, P.CloseRegion(1, true))), RegionClosed());
  }

  lemma ReachReceiveDone() returns (ls: Schedule)
    ensures End(Strict(), ls) == Some(ReceiveDone())
  {
    ls := ReachRegionClosed();
    FinishLeads(RegionClosed(), 1, false, ReceiveDone());
    ls := Next(Strict(), ls, RegionClosed(), Dispatch(Finish(1)), ReceiveDone());
  }

  /**
   A run in which a receive completes without error while the caller's slice still has its old bytes, and in which the
   reported length is that of the buffer and not that of the message.
   */
  lemma ReceiveShowsNothing() returns (ls: Schedule)
    ensures Start(Strict()) && Runnable(Strict(), ls)
    ensures var s := Exec(Strict(), ls);
            && 0 in s.calls && 1 in s.calls && 1 in s.cx.ctxs
            && s.calls[1].op == Done(false) && s.calls[1].from == Some(0) && s.calls[1].got == Some([7])
            && s.cx.ctxs[1].sink == Some([0, 0]) && s.calls[1].length == Some(2)
  {
    ls := ReachReceiveDone();
  }
}
