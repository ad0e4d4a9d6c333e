/**
 The whole client as a protocol: any number of SendAsync and ReceiveAsync calls, the
 dispatcher goroutine, any number of Close calls and the provider, interleaved step by
 step over the completion-context protocol and the region-pool protocol.

 A call is identified with the operation and the completion context it creates; its
 region, if any, is held in the pool protocol under the same identity.  The memory
 region of a call is released by whoever runs the operation's `release` closure.
 */
module ClientProtocol {
  import opened Basics
  import C = ContextProtocol
  import P = PoolProtocol

  type CallId = nat

  datatype Kind = Send | Receive

  /** Progress of `operation.complete`, with the error flag of the result. */
  datatype Op =
    | Pending
    | Stored(failed: bool)    // result stored, `completed` set
    | Tallied(failed: bool)   // emit has updated the counter
    | Freeing(failed: bool)   // the release closure is running
    | Done(failed: bool)      // `done` is closed

  /** Where the goroutine running sendAsync or ReceiveAsync is. */
  datatype Pc =
    | Entered         // past the open, non-empty and dispatcher-failure checks
    | Admitting       // in mrPool.Acquire, past its closed check
    | Filling         // has a region, not filled yet
    | Ready           // request built
    | Minting         // token allocated
    | Registered      // completion context created
    | Buffered        // staging buffer allocated
    | Staged          // about to call the provider
    | Accepted        // the provider took the post
    | Counted         // posted counter updated
    | Returned        // operation attached to the context, future returned
    | Injected        // the provider took the message by inject
    | InjectUndoing   // releasing the unused context
    | InjectPosted    // posted counter updated
    | InjectCounted   // completing the operation itself
    | InjectReturned
    | Failing         // on an error path
    | Undoing         // releasing the context
    | GivingBack      // releasing the region
    | Failed          // returned an error

  datatype Call = Call(
    kind: Kind,
    payload: seq<Byte>,               // the caller's slice as it was when the call began
    user: seq<Byte>,                  // a sender's slice as it is now
    pc: Pc,
    region: Option<P.RegionId>,       // the region in the request
    op: Op,
    size: nat,                        // op.size, the length that was posted
    length: Option<nat>,              // the length in the stored result
    got: Option<seq<Byte>>,           // receive: the message the provider placed
    from: Option<CallId>,             // and the send of this client it came from, if it is one of those
    dropped: bool)                    // the dispatcher found no operation on the context

  datatype Dispatcher =
    | Polling
    | Holding(k: CallId, failed: bool)     // has read an entry
    | Swapping(k: CallId, failed: bool)    // has taken the context out of the registry
    | Releasing(k: CallId, failed: bool)   // runs the context's release
    | Storing(k: CallId, failed: bool)     // has found the operation on the context
    | Completing(k: CallId)                // runs operation.complete, with the result stored
    | Exited

  datatype Closer = Idle | Swapped | Stopping | Tearing | Draining | Over

  datatype Stats = Stats(posted: nat, completed: nat, errored: nat)

  datatype State = State(
    hasPool: bool,
    requiresMR: bool,
    injectLimit: nat,
    calls: map<CallId, Call>,
    cx: C.State,
    pl: P.State,
    wire: map<CallId, seq<Byte>>,     // messages the provider has read from the sender's memory
    disp: Dispatcher,
    closed: bool,
    closer: Closer,
    stops: nat,                       // times stopCh was closed
    teardowns: nat,                   // times the teardown after wg.Wait began
    handlesClosed: bool,
    err: Option<nat>,                 // recorded dispatcher error
    sends: Stats,
    receives: Stats)

  /** Steps of prepareSend and prepareReceive. */
  datatype PrepareStep =
    | Begin(k: CallId, kind: Kind, payload: seq<Byte>)
    | Admit(k: CallId)
    | Miss(k: CallId)
    | GetRegion(k: CallId, p: P.Label)
    | NoRegion(k: CallId)
    | Fill(k: CallId)
    | ProvisionFails(k: CallId)

  /** Steps of PostSend and PostRecv, and what sendAsync and ReceiveAsync do after them. */
  datatype PostStep =
    | Mint(k: CallId, a: Addr)
    | Store(k: CallId)
    | Inject(k: CallId)
    | Ensure(k: CallId, a: Addr)
    | Stage(k: CallId)
    | Accept(k: CallId)
    | Count(k: CallId)
    | Attach(k: CallId)

  /** Steps of error exits, the unused context of an inject, and the steps of a release. */
  datatype UndoStep =
    | Fail(k: CallId)
    | SwapRelease(k: CallId)
    | CtxStep(k: CallId, c: C.Label)
    | GiveBack(k: CallId)
    | PoolStep(k: CallId, p: P.Label)
    | EndFail(k: CallId)
    | InjectCount(k: CallId)
    | InjectComplete(k: CallId)
    | InjectReturn(k: CallId)

  /** Steps of the provider, and the senders' own code. */
  datatype NetStep =
    | Scribble(k: CallId, data: seq<Byte>)
    | Capture(k: CallId)
    | Deliver(k: CallId, msg: seq<Byte>, from: Option<CallId>)

  /** Steps of the dispatcher, and operation.complete. */
  datatype DispatchStep =
    | ReadEntry(k: CallId, failed: bool)
    | Lookup(k: CallId)
    | SwapResolve(k: CallId)
    | LoadValue(k: CallId)
    | StoreResult(k: CallId)
    | Tally(k: CallId)
    | Free(k: CallId)
    | Finish(k: CallId)
    | RecordError(e: nat)
    | Exit

  /** Steps of Client.Close. */
  datatype ShutStep =
    | CloseCall
    | CloseStop
    | CloseWait
    | ClosePool
    | DrainStep(p: P.Label)
    | CloseHandles

  datatype Label =
    | Prepare(prepare: PrepareStep)
    | Post(post: PostStep)
    | Undo(undo: UndoStep)
    | Net(net: NetStep)
    | Dispatch(dispatch: DispatchStep)
    | Shut(shut: ShutStep)

  function Init(hasPool: bool, requiresMR: bool, injectLimit: nat, capacity: nat, size: nat): State {
    State(hasPool, requiresMR, injectLimit, map[], C.Init(), P.Init(capacity, size), map[], Polling,
          false, Idle, 0, 0, false, None, Stats(0, 0, 0), Stats(0, 0, 0))
  }

  // ---------------------------------------------------------------- one call, seen from everywhere

  datatype Role = NoRole | Reads(failed: bool) | Swaps(failed: bool) | Releases(failed: bool) | Stores(failed: bool)
    | Completes

  /** All the state that belongs to one call. */
  datatype View = View(
    call: Call,
    ctx: Option<C.Ctx>,
    staged: Option<seq<Byte>>,        // contents of the staging buffer
    point: Option<P.Point>,           // what the call does with its region
    held: Option<seq<Byte>>,          // contents of the region in its hands
    sent: Option<seq<Byte>>,
    role: Role,                       // what the dispatcher does with it
    limit: Option<nat>,               // largest request that goes through the pool
    strict: bool)                     // other requests need a region of their own

  function CtxOf(s: C.State, k: CallId): Option<C.Ctx> {
    if k in s.ctxs then Some(s.ctxs[k]) else None
  }

  function StagedOf(s: C.State, k: CallId): Option<seq<Byte>> {
    if k in s.ctxs && s.ctxs[k].buf in s.live then Some(s.live[s.ctxs[k].buf].bytes) else None
  }

  function PointOf(s: P.State, k: CallId): Option<P.Point> {
    if k in s.callers then Some(s.callers[k]) else None
  }

  function HeldOf(s: P.State, k: CallId): Option<seq<Byte>> {
    if k in s.callers && P.Hand(s.callers[k]).Some? && s.callers[k].r in s.regions
    then Some(s.regions[s.callers[k].r].bytes) else None
  }

  function RoleOf(d: Dispatcher, k: CallId): Role {
    match d
    case Holding(j, f) => if j == k then Reads(f) else NoRole
    case Swapping(j, f) => if j == k then Swaps(f) else NoRole
    case Releasing(j, f) => if j == k then Releases(f) else NoRole
    case Storing(j, f) => if j == k then Stores(f) else NoRole
    case Completing(j) => if j == k then Completes else NoRole
    case _ => NoRole
  }

  function SentOf(w: map<CallId, seq<Byte>>, k: CallId): Option<seq<Byte>> {
    if k in w then Some(w[k]) else None
  }

  function ViewOf(s: State, k: CallId): View
    requires k in s.calls
  {
    View(s.calls[k], CtxOf(s.cx, k), StagedOf(s.cx, k), PointOf(s.pl, k), HeldOf(s.pl, k), SentOf(s.wire, k),
         RoleOf(s.disp, k), if s.hasPool then Some(s.pl.size) else None, s.requiresMR)
  }

  // ---------------------------------------------------------------- steps

  predicate At(s: State, k: CallId, pc: Pc) {
    k in s.calls && s.calls[k].pc == pc
  }

  /** The request fits the pool, so prepareSend and prepareReceive use it. */
  predicate Pooled(s: State, k: CallId)
    requires k in s.calls
  {
    s.hasPool && |s.calls[k].payload| <= s.pl.size
  }

  function Set(s: State, k: CallId, c: Call): State {
    s.(calls := s.calls[k := c])
  }

  function Go(s: State, k: CallId, pc: Pc): State {
    if k in s.calls then Set(s, k, s.calls[k].(pc := pc)) else s
  }

  /** The context protocol takes a step. */
  function Ctx(s: State, l: C.Label): State {
    if C.Enabled(s.cx, l) then s.(cx := C.Step(s.cx, l)) else s
  }

  /** The pool protocol takes a step. */
  ghost function Pool(s: State, l: P.Label): State {
    if P.Enabled(s.pl, l) then s.(pl := P.Step(s.pl, l)) else s
  }

  /**
   What the provider reads from the sender's memory: the region, for inject the request buffer, or the staging buffer.
   */
  function Source(v: View): Option<seq<Byte>> {
    var n := |v.call.payload|;
    if v.call.region != None then
      if v.held.Some? && n <= |v.held.value| then Some(v.held.value[..n]) else None
    else if v.call.pc == Registered then Some(v.call.user)
    else if v.staged.Some? && n <= |v.staged.value| then Some(v.staged.value[..n])
    else None
  }

  predicate InFlight(s: State, k: CallId) {
    k in s.cx.ctxs && s.cx.ctxs[k].posted && s.cx.ctxs[k].entry == C.Absent
  }

  /** A message is one that the provider has read from a send of this client, or comes from another endpoint. */
  predicate SentBy(s: State, msg: seq<Byte>, from: Option<CallId>) {
    from.Some? ==>
      && from.value in s.calls && s.calls[from.value].kind == Send
      && from.value in s.wire && s.wire[from.value] == msg
  }

  /** The provider has done its part for a success entry: read the message, or placed one. */
  predicate ServedBy(s: State, k: CallId)
    requires k in s.calls
  {
    if s.calls[k].kind == Send then k in s.wire else s.calls[k].got != None
  }

  predicate ReleaseStep(k: CallId, c: C.Label) {
    c == C.Deregister(k) || c == C.RunCallbacks(k) || c == C.CopyBack(k) || c == C.Unstage(k) || c == C.FreeToken(k)
  }

  /** Acquire's two ways to a region, and RegisterMemory for a request that does not go through the pool. */
  predicate GetsRegion(s: State, k: CallId, p: P.Label) {
    || (At(s, k, Admitting) && (p == P.Take(k) || (p.Provision? && p.a == k)))
    || (At(s, k, Entered) && !Pooled(s, k) && s.requiresMR && p.Register? && p.a == k && p.n == |s.calls[k].payload|)
  }

  function Fetched(s: State, p: P.Label): Option<P.RegionId> {
    if p.Take? && s.pl.chan != [] then Some(s.pl.chan[0]) else if p.Provision? || p.Register? then Some(p.r) else None
  }

  /** The release closure: MRPool.Release for a pooled region, MemoryRegion.Close for any other. */
  function Closure(s: State, k: CallId): P.Label
    requires k in s.calls
  {
    if Pooled(s, k) then P.Release(k) else P.CloseOwn(k)
  }

  predicate CanRelease(s: State, k: CallId)
    requires k in s.calls
  {
    s.calls[k].region.Some? ==> P.Enabled(s.pl, Closure(s, k))
  }

  /** What the call writes where before it posts: the staging buffer, the copy-back slice, or nothing. */
  function Staging(s: State, k: CallId): Option<C.Label>
    requires k in s.calls
  {
    if s.calls[k].kind == Receive then Some(C.SetCopyBack(k, s.calls[k].user))
    else if s.calls[k].region == None then Some(C.Write(k, s.calls[k].user))
    else None
  }

  /** Whoever runs `operation.complete` for `k`: the dispatcher, or the sender itself after an inject. */
  predicate Completer(s: State, k: CallId) {
    k in s.calls && (s.disp == Completing(k) || s.calls[k].pc == InjectCounted)
  }

  predicate CanPrepare(s: State, l: PrepareStep) {
    match l
    case Begin(k, kind, payload) => k !in s.calls && |payload| > 0 && !s.closed && s.err == None
    case Admit(k) => At(s, k, Entered) && Pooled(s, k) && P.Enabled(s.pl, P.Admit(k))
    case Miss(k) => At(s, k, Admitting) && P.Enabled(s.pl, P.Miss(k))
    case GetRegion(k, p) => GetsRegion(s, k, p) && P.Enabled(s.pl, p)
    case NoRegion(k) => At(s, k, Entered) && !Pooled(s, k) && !s.requiresMR
    case Fill(k) => At(s, k, Filling) && (s.calls[k].kind == Send ==> P.Enabled(s.pl, P.Write(k, s.calls[k].user)))
    case ProvisionFails(k) => At(s, k, Admitting) && P.Enabled(s.pl, P.ProvisionFails(k))
  }

  predicate CanPost(s: State, l: PostStep) {
    match l
    case Mint(k, a) => At(s, k, Ready) && C.Enabled(s.cx, C.Mint(k, a))
    case Store(k) => At(s, k, Minting) && C.Enabled(s.cx, C.Store(k))
    case Inject(k) =>
      At(s, k, Registered) && s.calls[k].kind == Send && |s.calls[k].payload| <= s.injectLimit
      && Source(ViewOf(s, k)).Some?
    case Ensure(k, a) =>
      At(s, k, Registered) && s.calls[k].region == None && a != NIL
      && C.Enabled(s.cx, C.Ensure(k, |s.calls[k].payload|, a))
    case Stage(k) =>
      && (At(s, k, Buffered) || (At(s, k, Registered) && s.calls[k].region.Some?))
      && (Staging(s, k).Some? ==> C.Enabled(s.cx, Staging(s, k).value))
    case Accept(k) => At(s, k, Staged) && C.Enabled(s.cx, C.Accept(k))
    case Count(k) => At(s, k, Accepted)
    case Attach(k) => At(s, k, Counted)
  }

  predicate CanUndo(s: State, l: UndoStep) {
    match l
    case Fail(k) => At(s, k, Entered) || At(s, k, Ready) || At(s, k, Registered) || At(s, k, Staged)
    case SwapRelease(k) => (At(s, k, Injected) || At(s, k, Failing)) && C.Enabled(s.cx, C.SwapRelease(k))
    case CtxStep(k, c) =>
      ReleaseStep(k, c) && C.Enabled(s.cx, c)
      && (At(s, k, Undoing) || At(s, k, InjectUndoing) || (s.disp.Releasing? && s.disp.k == k))
    case GiveBack(k) =>
      && ((At(s, k, Failing) && k !in s.cx.ctxs)
          || (At(s, k, Undoing) && k in s.cx.ctxs && s.cx.ctxs[k].stage == C.Freed))
      && CanRelease(s, k)
    case PoolStep(k, p) =>
      (p == P.Push(k) || (p.CloseRegion? && p.a == k)) && P.Enabled(s.pl, p)
      && k in s.calls && (s.calls[k].pc == GivingBack || s.calls[k].op.Freeing?)
    case EndFail(k) => At(s, k, GivingBack) && k !in s.pl.callers
    case InjectCount(k) => At(s, k, InjectUndoing) && k in s.cx.ctxs && s.cx.ctxs[k].stage == C.Freed
    case InjectComplete(k) => At(s, k, InjectPosted)
    case InjectReturn(k) => At(s, k, InjectCounted) && s.calls[k].op.Done?
  }

  predicate CanNet(s: State, l: NetStep) {
    match l
    case Scribble(k, data) =>
      (At(s, k, Returned) || At(s, k, InjectReturned) || At(s, k, Failed)) && s.calls[k].kind == Send
    case Capture(k) =>
      k in s.calls && s.calls[k].kind == Send && InFlight(s, k) && k !in s.wire && Source(ViewOf(s, k)).Some?
    case Deliver(k, msg, from) =>
      && k in s.calls && s.calls[k].kind == Receive && InFlight(s, k) && s.calls[k].got == None
      && |msg| <= |s.calls[k].payload| && SentBy(s, msg, from)
      && (if s.calls[k].region.Some? then P.Enabled(s.pl, P.Write(k, msg))
          else C.Enabled(s.cx, C.Write(k, msg)))
  }

  predicate CanDispatch(s: State, l: DispatchStep) {
    match l
    case ReadEntry(k, failed) =>
      s.disp == Polling && k in s.calls && C.Enabled(s.cx, C.ReadEntry(k)) && (failed || ServedBy(s, k))
    case Lookup(k) => s.disp.Holding? && s.disp.k == k && C.Enabled(s.cx, C.Lookup(k))
    case SwapResolve(k) => s.disp.Swapping? && s.disp.k == k && C.Enabled(s.cx, C.SwapResolve(k))
    case LoadValue(k) =>
      s.disp.Releasing? && s.disp.k == k && k in s.calls && k in s.cx.ctxs
      && (s.cx.ctxs[k].stage == C.Freed || s.cx.ctxs[k].winner != C.Resolver)
    case StoreResult(k) => s.disp.Storing? && s.disp.k == k && k in s.calls
    case Tally(k) => Completer(s, k) && s.calls[k].op.Stored?
    case Free(k) => Completer(s, k) && s.calls[k].op.Tallied? && CanRelease(s, k)
    case Finish(k) => Completer(s, k) && s.calls[k].op.Freeing? && k !in s.pl.callers
    case RecordError(e) => s.disp == Polling
    case Exit => s.disp == Polling && s.stops > 0
  }

  predicate CanShut(s: State, l: ShutStep) {
    match l
    case CloseCall => true
    case CloseStop => s.closer == Swapped
    case CloseWait => s.closer == Stopping && s.disp == Exited
    case ClosePool => s.closer == Tearing && P.Enabled(s.pl, P.ClosePool)
    case DrainStep(p) => s.closer == Draining && (p == P.DrainTake || p.DrainClose? || p == P.DrainEnd)
                         && P.Enabled(s.pl, p)
    case CloseHandles => s.closer == Draining && s.pl.drain == P.Over
  }

  predicate Enabled(s: State, l: Label) {
    match l
    case Prepare(a) => CanPrepare(s, a)
    case Post(a) => CanPost(s, a)
    case Undo(a) => CanUndo(s, a)
    case Net(a) => CanNet(s, a)
    case Dispatch(a) => CanDispatch(s, a)
    case Shut(a) => CanShut(s, a)
  }

  ghost function DoGetRegion(s: State, k: CallId, p: P.Label): State
    requires k in s.calls
  {
    Set(Pool(s, p), k, s.calls[k].(pc := Filling, region := Fetched(s, p)))
  }

  ghost function DoFill(s: State, k: CallId): State
    requires k in s.calls
  {
    if s.calls[k].kind == Send then Go(Pool(s, P.Write(k, s.calls[k].user)), k, Ready) else Go(s, k, Ready)
  }

  /** The provider keeps a copy of what it reads. */
  function DoCapture(s: State, k: CallId): State
    requires k in s.calls
  {
    if Source(ViewOf(s, k)).Some? then s.(wire := s.wire[k := Source(ViewOf(s, k)).value]) else s
  }

  function DoStage(s: State, k: CallId): State
    requires k in s.calls
  {
    if Staging(s, k).Some? then Go(Ctx(s, Staging(s, k).value), k, Staged) else Go(s, k, Staged)
  }

  function Posted(st: Stats): Stats { st.(posted := st.posted + 1) }

  function Emitted(st: Stats, failed: bool): Stats {
    if failed then st.(errored := st.errored + 1) else st.(completed := st.completed + 1)
  }

  function CountPost(s: State, kind: Kind): State {
    if kind == Send then s.(sends := Posted(s.sends)) else s.(receives := Posted(s.receives))
  }

  ghost function Released(s: State, k: CallId): State
    requires k in s.calls
  {
    if s.calls[k].region.Some? then Pool(s, Closure(s, k)) else s
  }

  ghost function DoDeliver(s: State, k: CallId, msg: seq<Byte>, from: Option<CallId>): State
    requires k in s.calls
  {
    var c := s.calls[k].(got := Some(msg), from := from);
    if s.calls[k].region.Some? then Set(Pool(s, P.Write(k, msg)), k, c)
    else Set(Ctx(s, C.Write(k, msg)), k, c)
  }

  /** LoadAndDelete: the dispatcher goes on with the context it got, or drops an unknown pointer. */
  function DoLookup(s: State, k: CallId, failed: bool): State {
    var t := Ctx(s, C.Lookup(k));
    var found := if k in t.cx.ctxs && t.cx.ctxs[k].entry.Spent? then t.cx.ctxs[k].entry.found else None;
    t.(disp := if found.Some? then Swapping(found.value, failed) else Polling)
  }

  /** The result is stored: its length is the size of the operation. */
  function Resulting(c: Call, failed: bool): Call {
    c.(op := Stored(failed), length := Some(c.size))
  }

  /** The value on the context is the operation only if the posting call has come to SetValue. */
  function DoLoadValue(s: State, k: CallId, failed: bool): State
    requires k in s.calls
  {
    if s.calls[k].pc == Returned then s.(disp := Storing(k, failed))
    else Set(s, k, s.calls[k].(dropped := true)).(disp := Polling)
  }

  function DoTally(s: State, k: CallId): State
    requires k in s.calls && s.calls[k].op.Stored?
  {
    var f := s.calls[k].op.failed;
    var t := Set(s, k, s.calls[k].(op := Tallied(f)));
    if s.calls[k].kind == Send then t.(sends := Emitted(s.sends, f)) else t.(receives := Emitted(s.receives, f))
  }

  ghost function DoFree(s: State, k: CallId): State
    requires k in s.calls && s.calls[k].op.Tallied?
  {
    Set(Released(s, k), k, s.calls[k].(op := Freeing(s.calls[k].op.failed)))
  }

  function DoFinish(s: State, k: CallId): State
    requires k in s.calls && s.calls[k].op.Freeing?
  {
    var t := Set(s, k, s.calls[k].(op := Done(s.calls[k].op.failed)));
    if s.disp == Completing(k) then t.(disp := Polling) else t
  }

  function DoClose(s: State): State {
    if s.closed then s else s.(closed := true, closer := Swapped)
  }

  function NewCall(kind: Kind, payload: seq<Byte>): Call {
    Call(kind, payload, payload, Entered, None, Pending, |payload|, None, None, None, false)
  }

  ghost function DoPrepare(s: State, l: PrepareStep): State
    requires CanPrepare(s, l)
  {
    match l
    case Begin(k, kind, payload) => Set(s, k, NewCall(kind, payload))
    case Admit(k) => Go(Pool(s, P.Admit(k)), k, Admitting)
    case Miss(k) => Pool(s, P.Miss(k))
    case GetRegion(k, p) => DoGetRegion(s, k, p)
    case NoRegion(k) => Go(s, k, Ready)
    case Fill(k) => DoFill(s, k)
    case ProvisionFails(k) => Go(Pool(s, P.ProvisionFails(k)), k, Failing)
  }

  ghost function DoPost(s: State, l: PostStep): State
    requires CanPost(s, l)
  {
    match l
    case Mint(k, a) => Go(Ctx(s, C.Mint(k, a)), k, Minting)
    case Store(k) => Go(Ctx(s, C.Store(k)), k, Registered)
    case Inject(k) => Go(DoCapture(s, k), k, Injected)
    case Ensure(k, a) => Go(Ctx(s, C.Ensure(k, |s.calls[k].payload|, a)), k, Buffered)
    case Stage(k) => DoStage(s, k)
    case Accept(k) => Go(Ctx(s, C.Accept(k)), k, Accepted)
    case Count(k) => CountPost(Go(s, k, Counted), s.calls[k].kind)
    case Attach(k) => Go(s, k, Returned)
  }

  ghost function DoUndo(s: State, l: UndoStep): State
    requires CanUndo(s, l)
  {
    match l
    case Fail(k) => Go(s, k, Failing)
    case SwapRelease(k) => Go(Ctx(s, C.SwapRelease(k)), k, if s.calls[k].pc == Injected then InjectUndoing else Undoing)
    case CtxStep(k, c) => Ctx(s, c)
    case GiveBack(k) => Go(Released(s, k), k, GivingBack)
    case PoolStep(k, p) => Pool(s, p)
    case EndFail(k) => Go(s, k, Failed)
    case InjectCount(k) => CountPost(Go(s, k, InjectPosted), s.calls[k].kind)
    case InjectComplete(k) => Set(s, k, Resulting(s.calls[k], false).(pc := InjectCounted))
    case InjectReturn(k) => Go(s, k, InjectReturned)
  }

  ghost function DoNet(s: State, l: NetStep): State
    requires CanNet(s, l)
  {
    match l
    case Scribble(k, data) => Set(s, k, s.calls[k].(user := data))
    case Capture(k) => DoCapture(s, k)
    case Deliver(k, msg, from) => DoDeliver(s, k, msg, from)
  }

  ghost function DoDispatch(s: State, l: DispatchStep): State
    requires CanDispatch(s, l)
  {
    match l
    case ReadEntry(k, failed) => Ctx(s, C.ReadEntry(k)).(disp := Holding(k, failed))
    case Lookup(k) => DoLookup(s, k, s.disp.failed)
    case SwapResolve(k) => Ctx(s, C.SwapResolve(k)).(disp := Releasing(k, s.disp.failed))
    case LoadValue(k) => DoLoadValue(s, k, s.disp.failed)
    case StoreResult(k) => Set(s, k, Resulting(s.calls[k], s.disp.failed)).(disp := Completing(k))
    case Tally(k) => DoTally(s, k)
    case Free(k) => DoFree(s, k)
    case Finish(k) => DoFinish(s, k)
    case RecordError(e) => if s.err == None then s.(err := Some(e)) else s
    case Exit => s.(disp := Exited)
  }

  ghost function DoShut(s: State, l: ShutStep): State
    requires CanShut(s, l)
  {
    match l
    case CloseCall => DoClose(s)
    case CloseStop => s.(closer := Stopping, stops := s.stops + 1)
    case CloseWait => s.(closer := Tearing, teardowns := s.teardowns + 1)
    case ClosePool => Pool(s, P.ClosePool).(closer := Draining)
    case DrainStep(p) => Pool(s, p)
    case CloseHandles => s.(closer := Over, handlesClosed := true)
  }

  ghost function Step(s: State, l: Label): State
    requires Enabled(s, l)
  {
    match l
    case Prepare(a) => DoPrepare(s, a)
    case Post(a) => DoPost(s, a)
    case Undo(a) => DoUndo(s, a)
    case Net(a) => DoNet(s, a)
    case Dispatch(a) => DoDispatch(s, a)
    case Shut(a) => DoShut(s, a)
  }
}
