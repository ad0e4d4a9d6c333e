/** Runs in which a posted send never completes: its entry is dropped, or the client is closed before it is read. */
module ClientLosses {
  import opened Basics
  import C = ContextProtocol
  import P = PoolProtocol
  import opened ClientProtocol
  import opened ClientTheorems
  import opened ClientSteps
  import opened ClientShutdown

  function Token(): map<Addr, C.Block> { map[1 := C.Block(C.Token(0), [0])] }
  function TokenAndBuffer(): map<Addr, C.Block> { Token()[2 := C.Block(C.Staging(0), [7])] }
  function Made(): C.Ctx { C.Ctx(1, NIL, None, C.Minted, C.Nobody, false, C.Absent, false, 0) }
  function Opened(): C.Ctx { Made().(stage := C.Open) }
  function Accepting(): C.Ctx { Opened().(buf := 2, posted := true) }
  function Found(): C.Entry { C.Spent(Some(0)) }
  function Taken(): C.Ctx { Accepting().(entry := Found(), stage := C.Detached, winner := C.Resolver) }

  /** A client without pool and registration. */
  function Plain(): State {
    Init(false, false, 0, 0, 0)
  }

  /** The same with one send. */
  function Send0(pc: Pc, cx: C.State): State {
    Plain().(calls := map[0 := NewCall(Send, [7]).(pc := pc)], cx := cx)
  }

  /** The send after the provider accepted it, with the dispatcher at its entry. */
  function Serving(cx: C.State, d: Dispatcher): State {
    Send0(Accepted, cx).(disp := d)
  }

  // ---------------------------------------------------------------- up to the accepted post

  function SendBegun(): State {
    Send0(Entered, C.Init())
  }

  function SendReady(): State {
    Send0(Ready, C.Init())
  }

  function SendMinted(): State {
    Send0(Minting, C.State(Token(), map[], map[0 := Made()], map[], 0))
  }

  function SendRegistered(): State {
    Send0(Registered, C.State(Token(), map[1 := 0], map[0 := Opened()], map[], 0))
  }

  function SendBuffered(): State {
    Send0(Buffered, C.State(Token()[2 := C.Block(C.Staging(0), seq(1, _ => 0))], map[1 := 0],
                            map[0 := Opened().(buf := 2)], map[], 0))
  }

  function SendStaged(): State {
    Send0(Staged, C.State(TokenAndBuffer(), map[1 := 0], map[0 := Opened().(buf := 2)], map[], 0))
  }

  function SendAccepted(): State {
    Send0(Accepted, C.State(TokenAndBuffer(), map[1 := 0], map[0 := Accepting()], map[], 0))
  }

  lemma ReachSendBegun() returns (ls: Schedule)
    ensures End(Plain(), ls) == Some(SendBegun())
  {
    ls := [];
    ls := Next(Plain(), ls, Plain(), Prepare(Begin(0, Send, [7])), SendBegun());
  }

  lemma ReachSendReady() returns (ls: Schedule)
    ensures End(Plain(), ls) == Some(SendReady())
  {
    ls := ReachSendBegun();
    assert SendReady().calls == SendBegun().calls[0 := SendBegun().calls[0].(pc := Ready)];
    ls := Next(Plain(), ls, SendBegun(), Prepare(NoRegion(0)), SendReady());
  }

  lemma ReachSendMinted() returns (ls: Schedule)
    ensures End(Plain(), ls) == Some(SendMinted())
  {
    ls := ReachSendReady();
    ContextLeads(SendReady(), 0, 1, SendMinted().cx, SendMinted());
    ls := Next(Plain(), ls, SendReady(), Post(Mint(0, 1)), SendMinted());
  }

  lemma ReachSendRegistered() returns (ls: Schedule)
    ensures End(Plain(), ls) == Some(SendRegistered())
  {
    ls := ReachSendMinted();
    StoreLeads(SendMinted(), 0, SendRegistered().cx, SendRegistered());
    ls := Next(Plain(), ls, SendMinted(), Post(Store(0)), SendRegistered());
  }

  lemma ReachSendBuffered() returns (ls: Schedule)
    ensures End(Plain(), ls) == Some(SendBuffered())
  {
    ls := ReachSendRegistered();
    EnsureLeads(SendRegistered(), 0, 2, SendBuffered().cx, SendBuffered());
    ls := Next(Plain(), ls, SendRegistered(), Post(Ensure(0, 2)), SendBuffered());
  }

  lemma ReachSendStaged() returns (ls: Schedule)
    ensures End(Plain(), ls) == Some(SendStaged())
  {
    ls := ReachSendBuffered();
    assert Overlay(seq(1, _ => 0), [7]) == [7];
    StageLeads(SendBuffered(), 0, C.Write(0, [7]), SendStaged().cx, SendStaged());
    ls := Next(Plain(), ls, SendBuffered(), Post(Stage(0)), SendStaged());
  }

  lemma ReachSendAccepted() returns (ls: Schedule)
    ensures End(Plain(), ls) == Some(SendAccepted())
  {
    ls := ReachSendStaged();
    AcceptLeads(SendStaged(), 0, SendAccepted().cx, SendAccepted());
    ls := Next(Plain(), ls, SendStaged(), Post(Accept(0)), SendAccepted());
  }

  // ---------------------------------------------------------------- the entry is read before the operation is attached

  function EntryRead(): State {
    Serving(C.State(TokenAndBuffer(), map[1 := 0], map[0 := Accepting().(entry := C.Read)], map[], 0), Holding(0, true))
  }

  function EntryLookedUp(): State {
    Serving(C.State(TokenAndBuffer(), map[], map[0 := Accepting().(entry := Found(), loaded := true)], map[], 0),
            Swapping(0, true))
  }

  function ReleaseWon(): State {
    Serving(C.State(TokenAndBuffer(), map[], map[0 := Taken()], map[], 0), Releasing(0, true))
  }

  function CallbacksRun(): State {
    Serving(C.State(TokenAndBuffer(), map[], map[0 := Taken().(stage := C.Called, called := 1)], map[], 0),
            Releasing(0, true))
  }

  function CopyBackSkipped(): State {
    Serving(C.State(TokenAndBuffer(), map[], map[0 := Taken().(stage := C.Copied, called := 1)], map[], 0),
            Releasing(0, true))
  }

  function BufferFreed(): State {
    Serving(C.State(Token(), map[], map[0 := Taken().(stage := C.Unstaged, buf := NIL, called := 1)], map[], 0),
            Releasing(0, true))
  }

  function TokenFreed(): State {
    Serving(C.State(map[], map[], map[0 := Taken().(stage := C.Freed, buf := NIL, called := 1)], map[], 0),
            Releasing(0, true))
  }

  function EntryDropped(): State {
    Send0(Accepted, C.State(map[], map[], map[0 := Taken().(stage := C.Freed, buf := NIL, called := 1)], map[], 0))
      .(calls := map[0 := NewCall(Send, [7]).(pc := Accepted, dropped := true)])
  }

  lemma ReachEntryRead() returns (ls: Schedule)
    ensures End(Plain(), ls) == Some(EntryRead())
  {
    ls := ReachSendAccepted();
    ReadLeads(SendAccepted(), 0, true, EntryRead().cx, EntryRead());
    ls := Next(Plain(), ls, SendAccepted(), Dispatch(ReadEntry(0, true)), EntryRead());
  }

  lemma ReachEntryLookedUp() returns (ls: Schedule)
    ensures End(Plain(), ls) == Some(EntryLookedUp())
  {
    ls := ReachEntryRead();
    LookupLeads(EntryRead(), 0, true, 1, EntryLookedUp());
    ls := Next(Plain(), ls, EntryRead(), Dispatch(Lookup(0)), EntryLookedUp());
  }

  lemma ReachReleaseWon() returns (ls: Schedule)
    ensures End(Plain(), ls) == Some(ReleaseWon())
  {
    ls := ReachEntryLookedUp();
    SwapLeads(EntryLookedUp(), 0, true, ReleaseWon().cx, ReleaseWon());
    ls := Next(Plain(), ls, EntryLookedUp(), Dispatch(SwapResolve(0)), ReleaseWon());
  }

  lemma ReachCallbacksRun() returns (ls: Schedule)
    ensures End(Plain(), ls) == Some(CallbacksRun())
  {
    ls := ReachReleaseWon();
    ReleaseLeads(ReleaseWon(), 0, C.RunCallbacks(0), CallbacksRun().cx, CallbacksRun());
    ls := Next(Plain(), ls, ReleaseWon(), Undo(CtxStep(0, C.RunCallbacks(0))), CallbacksRun());
  }

  lemma ReachCopyBackSkipped() returns (ls: Schedule)
    ensures End(Plain(), ls) == Some(CopyBackSkipped())
  {
    ls := ReachCallbacksRun();
    ReleaseLeads(CallbacksRun(), 0, C.CopyBack(0), CopyBackSkipped().cx, CopyBackSkipped());
    ls := Next(Plain(), ls, CallbacksRun(), Undo(CtxStep(0, C.CopyBack(0))), CopyBackSkipped());
  }

  lemma ReachBufferFreed() returns (ls: Schedule)
    ensures End(Plain(), ls) == Some(BufferFreed())
  {
    ls := ReachCopyBackSkipped();
    ReleaseLeads(CopyBackSkipped(), 0, C.Unstage(0), BufferFreed().cx, BufferFreed());
    ls := Next(Plain(), ls, CopyBackSkipped(), Undo(CtxStep(0, C.Unstage(0))), BufferFreed());
  }

  lemma ReachTokenFreed() returns (ls: Schedule)
    ensures End(Plain(), ls) == Some(TokenFreed())
  {
    ls := ReachBufferFreed();
    FreeTokenLeads(BufferFreed(), 0, 1, TokenFreed());
    ls := Next(Plain(), ls, BufferFreed(), Undo(CtxStep(0, C.FreeToken(0))), TokenFreed());
  }

  lemma ReachEntryDropped() returns (ls: Schedule)
    ensures End(Plain(), ls) == Some(EntryDropped())
  {
    ls := ReachTokenFreed();
    DropLeads(TokenFreed(), 0, true, EntryDropped());
    ls := Next(Plain(), ls, TokenFreed(), Dispatch(LoadValue(0)), EntryDropped());
  }

  /** A run in which a posted operation is dropped: its entry is read before the call has attached the operation. */
  lemma EntryIsDropped() returns (ls: Schedule)
    ensures Start(Plain()) && Runnable(Plain(), ls)
    ensures 0 in Exec(Plain(), ls).calls && Exec(Plain(), ls).calls[0].dropped
            && Exec(Plain(), ls).calls[0].op == Pending
  {
    ls := ReachEntryDropped();
  }

  // ---------------------------------------------------------------- the client is closed before the entry is read

  /** The send in flight and its operation attached, in a client this far in its shutdown. */
  function Closing(closer: Closer, stops: nat, teardowns: nat, d: Dispatcher, pl: P.State): State {
    SendAttached().(closed := true, closer := closer, stops := stops, teardowns := teardowns, disp := d, pl := pl)
  }

  /** The pool protocol without regions, closed; it stands for the pool this client does not have. */
  function NoPool(drain: P.Drain): P.State {
    P.State(0, 0, true, [], map[], map[], drain, {})
  }

  function SendCounted(): State {
    Send0(Counted, C.State(TokenAndBuffer(), map[1 := 0], map[0 := Accepting()], map[], 0)).(sends := Stats(1, 0, 0))
  }

  function SendAttached(): State {
    Send0(Returned, C.State(TokenAndBuffer(), map[1 := 0], map[0 := Accepting()], map[], 0)).(sends := Stats(1, 0, 0))
  }

  function CloseCalled(): State {
    Closing(Swapped, 0, 0, Polling, P.Init(0, 0))
  }

  function StopSignalled(): State {
    Closing(Stopping, 1, 0, Polling, P.Init(0, 0))
  }

  function DispatcherGone(): State {
    Closing(Stopping, 1, 0, Exited, P.Init(0, 0))
  }

  function TeardownBegun(): State {
    Closing(Tearing, 1, 1, Exited, P.Init(0, 0))
  }

  function PoolClosed(): State {
    Closing(Draining, 1, 1, Exited, NoPool(P.Taking))
  }

  function PoolDrained(): State {
    Closing(Draining, 1, 1, Exited, NoPool(P.Over))
  }

  function CloseReturned(): State {
    Closing(Over, 1, 1, Exited, NoPool(P.Over)).(handlesClosed := true)
  }

  lemma ReachSendCounted() returns (ls: Schedule)
    ensures End(Plain(), ls) == Some(SendCounted())
  {
    ls := ReachSendAccepted();
    CountLeads(SendAccepted(), 0, SendCounted());
    ls := Next(Plain(), ls, SendAccepted(), Post(Count(0)), SendCounted());
  }

  lemma ReachSendAttached() returns (ls: Schedule)
    ensures End(Plain(), ls) == Some(SendAttached())
  {
    ls := ReachSendCounted();
    AttachLeads(SendCounted(), 0, SendAttached());
    ls := Next(Plain(), ls, SendCounted(), Post(Attach(0)), SendAttached());
  }

  lemma ReachCloseCalled() returns (ls: Schedule)
    ensures End(Plain(), ls) == Some(CloseCalled())
  {
    ls := ReachSendAttached();
    ShutLeads(SendAttached(), CloseCall, CloseCalled());
    ls := Next(Plain(), ls, SendAttached(), Shut(CloseCall), CloseCalled());
  }

  lemma ReachStopSignalled() returns (ls: Schedule)
    ensures End(Plain(), ls) == Some(StopSignalled())
  {
    ls := ReachCloseCalled();
    ShutLeads(CloseCalled(), CloseStop, StopSignalled());
    ls := Next(Plain(), ls, CloseCalled(), Shut(CloseStop), StopSignalled());
  }

  lemma ReachDispatcherGone() returns (ls: Schedule)
    ensures End(Plain(), ls) == Some(DispatcherGone())
  {
    ls := ReachStopSignalled();
    ExitLeads(StopSignalled(), DispatcherGone());
    ls := Next(Plain(), ls, StopSignalled(), Dispatch(Exit), DispatcherGone());
  }

  lemma ReachTeardownBegun() returns (ls: Schedule)
    ensures End(Plain(), ls) == Some(TeardownBegun())
  {
    ls := ReachDispatcherGone();
    ShutLeads(DispatcherGone(), CloseWait, TeardownBegun());
    ls := Next(Plain(), ls, DispatcherGone(), Shut(CloseWait), TeardownBegun());
  }

  lemma ReachPoolClosed() returns (ls: Schedule)
    ensures End(Plain(), ls) == Some(PoolClosed())
  {
    ls := ReachTeardownBegun();
    assert P.BeingPushed(P.Init(0, 0)) == {};
    ShutLeads(TeardownBegun(), ClosePool, PoolClosed());
    ls := Next(Plain(), ls, TeardownBegun(), Shut(ClosePool), PoolClosed());
  }

  lemma ReachPoolDrained() returns (ls: Schedule)
    ensures End(Plain(), ls) == Some(PoolDrained())
  {
    ls := ReachPoolClosed();
    ShutLeads(PoolClosed(), DrainStep(P.DrainEnd), PoolDrained());
    ls := Next(Plain(), ls, PoolClosed(), Shut(DrainStep(P.DrainEnd)), PoolDrained());
  }

  lemma ReachCloseReturned() returns (ls: Schedule)
    ensures End(Plain(), ls) == Some(CloseReturned())
  {
    ls := ReachPoolDrained();
    ShutLeads(PoolDrained(), CloseHandles, CloseReturned());
    ls := Next(Plain(), ls, PoolDrained(), Shut(CloseHandles), CloseReturned());
  }

  /** A run in which `Close` returns, with everything closed, while the future of a posted send is still pending. */
  lemma CloseLeavesPending() returns (ls: Schedule)
    ensures Start(Plain()) && Runnable(Plain(), ls)
    ensures var s := Exec(Plain(), ls);
            && s.closer == Over && s.handlesClosed && s.disp == Exited
            && 0 in s.calls && s.calls[0].pc == Returned && s.calls[0].op == Pending && InFlight(s, 0)
            && Outstanding(s.calls, 0)
  {
    ls := ReachCloseReturned();
  }
}
