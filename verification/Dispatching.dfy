/** The dispatcher loop of the client, with the queue and the stop channel as a script. */
module Dispatching {
  import opened Basics
  import opened Runtime
  import opened Clients
  import W = Waiting

  datatype ErrorEntry = ErrorEntry(p: Addr, errno: int, source: nat)

  /** What the provider answers to a read of the error queue. */
  datatype ErrAnswer = ErrStatus(errno: W.Errno) | NoEntry | Failure(entry: ErrorEntry)

  /**
   One turn: whether the stop channel is closed, what the two reads answer, and whether it is closed during the sleep.
   */
  datatype Turn = Turn(stopped: bool, read: W.Answer, readErr: ErrAnswer, stoppedAsleep: bool)

  /** The error that a read reports, if it is one to record. */
  function Trouble(e: W.Error): Option<W.Error> {
    if e == W.NoCompletion then None else Some(e)
  }

  function ErrTrouble(a: ErrAnswer): (r: Option<W.Error>)
    ensures r == None <==> !a.ErrStatus? || a.errno == W.FI_EAGAIN
    ensures r == Some(W.Timeout) <==> a == ErrStatus(W.FI_ETIMEDOUT)
    ensures r.Some? && r.value != W.Timeout ==> a.ErrStatus? && r.value == W.Provider(a.errno)
  {
    match a
    case ErrStatus(e) => Trouble(W.TranslateErr(e))
    case NoEntry => None
    case Failure(_) => None
  }

  function ReadTrouble(a: W.Answer): (r: Option<W.Error>)
    ensures r == None <==> !a.Status? || a.errno == W.FI_EAGAIN
    ensures r == Some(W.Timeout) <==> a == W.Status(W.FI_ETIMEDOUT)
    ensures r.Some? && r.value != W.Timeout ==> a.Status? && r.value == W.Provider(a.errno)
  {
    var r := W.ReadResult(a);
    if r.Bad? then Trouble(r.error) else None
  }

  /** A call of `complete`: the operation, the source of the entry, and its error if it came from the error queue. */
  datatype Call = Call(op: OpId, source: nat, failure: Option<int>)

  datatype Progress = Progress(world: World, err: Option<W.Error>, calls: seq<Call>)

  /** The operation that an entry with this pointer completes: the one attached to the context it resolves to. */
  function Attached(w: World, p: Addr, ops: set<OpId>): Option<OpId> {
    if p in w.ctxs && w.ctxs[p].value.Some? && w.ctxs[p].value.value in ops then w.ctxs[p].value else None
  }

  function Handle(s: Progress, p: Addr, source: nat, failure: Option<int>, ops: set<OpId>): Progress {
    var op := Attached(s.world, p, ops);
    s.(world := Resolved(s.world, p), calls := s.calls + (if op.Some? then [Call(op.value, source, failure)] else []))
  }

  /** compare-and-swap from nil: only the first error stays. */
  function Record(s: Progress, e: Option<W.Error>): Progress {
    if s.err == None then s.(err := e) else s
  }

  datatype Step = Step(progress: Progress, stop: bool)

  /** One turn of the loop as a function: the success queue first, the error queue only if that gives nothing. */
  function One(s: Progress, turn: Turn, ops: set<OpId>): Step {
    if turn.stopped then Step(s, true)
    else if turn.read.Entry? then Step(Handle(s, turn.read.event.p, turn.read.event.source, None, ops), false)
    else
      var s1 := Record(s, ReadTrouble(turn.read));
      if turn.readErr.Failure? then
        var e := turn.readErr.entry;
        Step(Handle(s1, e.p, e.source, Some(e.errno), ops), false)
      else Step(Record(s1, ErrTrouble(turn.readErr)), turn.stoppedAsleep)
  }

  /** The loop as a function. */
  function Run(s: Progress, turns: seq<Turn>, ops: set<OpId>): Progress
    decreases |turns|
  {
    if turns == [] then s
    else
      var r := One(s, turns[0], ops);
      if r.stop then r.progress else Run(r.progress, turns[1..], ops)
  }

  /** The error, if it was one, of the first call for an operation, if there is one. */
  function FirstCall(calls: seq<Call>, op: OpId): Option<Option<int>> {
    if calls == [] then None else if calls[0].op == op then Some(calls[0].failure) else FirstCall(calls[1..], op)
  }

  lemma {:induction false} FirstCallSnoc(calls: seq<Call>, c: Call, op: OpId)
    ensures FirstCall(calls + [c], op)
            == if FirstCall(calls, op).Some? then FirstCall(calls, op) else if c.op == op then Some(c.failure) else None
  {
    if calls != [] {
      assert (calls + [c])[1..] == calls[1..] + [c];
      FirstCallSnoc(calls[1..], c, op);
    }
  }

  // ---------------------------------------------------------------- the loop

  ghost predicate OpsOk(c: Client)
    reads c, c.ops.Values
  {
    forall id {:trigger c.ops[id]} :: id in c.ops ==> c.ops[id].id == id && c.ops[id].Valid()
  }

  /** recordDispatcherError. */
  method RecordError(c: Client, e: Option<W.Error>)
    modifies c`dispatcherErr
    ensures c.dispatcherErr == if old(c.dispatcherErr) == None then e else old(c.dispatcherErr)
  {
    if e.Some? && c.dispatcherErr == None {
      c.dispatcherErr := e;
    }
  }

  /** All that can change of an operation. */
  datatype Fields = Fields(source: nat, release: Option<Closure>, once: bool, completed: bool, result: Result,
                           callbacks: seq<Callback>, done: bool)

  ghost function FieldsOf(op: Operation): Fields
    reads op
  {
    Fields(op.source, op.release, op.once, op.completed, op.result, op.callbacks, op.done)
  }

  ghost function AllFields(c: Client): map<OpId, Fields>
    reads c`ops, c.ops.Values
  {
    map id | id in c.ops :: FieldsOf(c.ops[id])
  }

  /** What an entry can change of an operation and its client. */
  datatype Account = Account(fields: Fields, sends: Stats, receives: Stats, log: seq<Happening>)

  ghost function AccountOf(c: Client, op: Operation): Account
    reads c`sends, c`receives, c`log, op
  {
    Account(FieldsOf(op), c.sends, c.receives, c.log)
  }

  /** The account once an entry was handled: of an operation that was complete only the source of a receive changes. */
  function Settled(op: Operation, was: Account, source: nat, failure: Option<int>, fan: seq<Happening>): Account {
    var f, res := was.fields, ResultOf(op.kind, op.size, failure);
    if f.once then was.(fields := Called(f, op.kind, op.size, source, failure))
    else
      Account(Called(f, op.kind, op.size, source, failure),
              if op.kind == Send then Tallied(was.sends, failure) else was.sends,
              if op.kind == Receive then Tallied(was.receives, failure) else was.receives,
              was.log + [Counted(op.kind, failure.Some?)] + fan + Afterwards(op.id, f.release, f.callbacks, res))
  }

  function ResultOf(kind: Kind, size: nat, failure: Option<int>): Result {
    Result(size, if failure.Some? then Some(OpError(kind, failure.value)) else None)
  }

  /** The fields of an operation after a call of `complete`, with the source that is stored before it. */
  function Called(f: Fields, kind: Kind, size: nat, source: nat, failure: Option<int>): Fields {
    var from := if kind == Receive then source else f.source;
    if f.once then f.(source := from)
    else Fields(from, f.release, true, true, ResultOf(kind, size, failure), [], true)
  }

  function Tallied(st: Stats, failure: Option<int>): Stats {
    if failure.Some? then st.(errored := st.errored + 1) else st.(completed := st.completed + 1)
  }

  /** All operations with their fields, and the counters. */
  datatype Books = Books(fields: map<OpId, Fields>, sends: Stats, receives: Stats)

  /** What is fixed of an operation. */
  datatype Spec = Spec(kind: Kind, size: nat)

  ghost function BooksOf(c: Client): Books
    reads c`ops, c`sends, c`receives, c.ops.Values
  {
    Books(AllFields(c), c.sends, c.receives)
  }

  ghost function Specs(c: Client): map<OpId, Spec>
    reads c`ops
  {
    map id | id in c.ops :: Spec(c.ops[id].kind, c.ops[id].size)
  }

  /** One call of `complete`. */
  function Booked(b: Books, specs: map<OpId, Spec>, call: Call): Books {
    if call.op !in b.fields || call.op !in specs then b
    else
      var f, x := b.fields[call.op], specs[call.op];
      var t := b.(fields := b.fields[call.op := Called(f, x.kind, x.size, call.source, call.failure)]);
      if f.once then t
      else if x.kind == Send then t.(sends := Tallied(b.sends, call.failure))
      else t.(receives := Tallied(b.receives, call.failure))
  }

  /** The registered handlers of the kind, each started once with the result. */
  ghost predicate Tells(c: Client, op: Operation, fan: seq<Happening>)
    reads c`sendHandlers, c`receiveHandlers, op, Arrays(fan)
  {
    && (op.kind == Send ==> IsSendFan(fan, c.sendHandlers, c.sendHandlers.Keys, op.result))
    && (op.kind == Receive ==> IsTold(fan, c.receiveHandlers, op.result.err, op.source))
  }

  /**
   handleCompletion: resolves the entry, and completes the operation attached to its context, if there is one.  The
   handlers of a receive that is to be copied back get the bytes that its staging buffer had.
   */
  method HandleCompletion(c: Client, g: Process, p: Addr, source: nat, failure: Option<int>)
      returns (ghost hit: Option<OpId>, ghost fan: seq<Happening>)
    requires g.Valid() && OpsOk(c)
    modifies g, g.registry.Values, c`sends, c`receives, c`log, c.ops.Values
    ensures g.Valid() && OpsOk(c)
    ensures g.Abs() == Resolved(old(g.Abs()), p) && g.registry.Values <= old(g.registry.Values)
    ensures hit == Attached(old(g.Abs()), p, c.ops.Keys)
    ensures Specs(c) == old(Specs(c))
    ensures BooksOf(c) == if hit == None then old(BooksOf(c))
              else Booked(old(BooksOf(c)), Specs(c), Call(hit.value, source, failure))
    ensures hit == None ==> c.log == old(c.log)
    ensures hit.Some? ==>
              var op := c.ops[hit.value];
              && AccountOf(c, op) == Settled(op, old(AccountOf(c, op)), source, failure, fan)
              && (!old(op.once) ==> Tells(c, op, fan))
              && (!old(op.once) && op.kind == Receive && op.buffer.Some?
                  && ToFill(old(g.Abs()), p, op.buffer.value, op.size) ==>
                    GiveBytes(fan, old(g.live[g.Abs().ctxs[p].buffer].bytes[..op.size])))
  {
    var id;
    ghost var front;
    id, front := ResolveAttached(c, g, p);
    if id == None {
      return None, [];
    }
    fan := CompleteOne(c, g, id.value, source, failure, front);
    hit := id;
  }

  /** Resolves an entry and looks up the operation; `front`: what the release has copied into the slice of a receive. */
  method ResolveAttached(c: Client, g: Process, p: Addr) returns (id: Option<OpId>, ghost front: seq<Byte>)
    requires g.Valid() && OpsOk(c)
    modifies g, g.registry.Values
    ensures g.Valid() && OpsOk(c) && g.registry.Values <= old(g.registry.Values)
    ensures g.Abs() == Resolved(old(g.Abs()), p) && AllFields(c) == old(AllFields(c))
    ensures id == Attached(old(g.Abs()), p, c.ops.Keys)
    ensures id.Some? ==>
              var op := c.ops[id.value];
              && (front != [] ==> |front| == op.size && HasFront(g.user, op.buffer, front))
              && (op.buffer.Some? && ToFill(old(g.Abs()), p, op.buffer.value, op.size) ==>
                    front != [] && front == old(g.live[g.Abs().ctxs[p].buffer].bytes[..op.size]))
  {
    ghost var w := g.Abs();
    var ctx := g.ResolveCompletion(p);
    front := [];
    if ctx == null || ctx.value == None || ctx.value.value !in c.ops {
      return None, [];
    }
    ghost var op := c.ops[ctx.value.value];
    if op.buffer.Some? && ToFill(w, p, op.buffer.value, op.size) {
      ReleaseFillsTheSlice(w, p, true);
      front := w.live[w.ctxs[p].buffer].bytes[..op.size];
      FrontOfTheSlice(g.user, op.buffer.value, w.live[w.ctxs[p].buffer].bytes, op.size);
    }
    return ctx.value, front;
  }

  lemma FrontOfTheSlice(user: map<BufId, seq<Byte>>, s: Slice, bytes: seq<Byte>, n: nat)
    requires InBounds(user, s) && n <= s.len <= |bytes| && Load(user, s) == bytes[..s.len]
    ensures HasFront(user, Some(s), bytes[..n])
  {
    forall j | 0 <= j < n ensures user[s.buf][s.off + j] == bytes[j] {
      assert Load(user, s)[j] == bytes[..s.len][j];
    }
  }

  /** A context with a staging buffer and this slice to fill, of `n` bytes at least. */
  ghost predicate ToFill(w: World, p: Addr, s: Slice, n: nat) {
    && p in w.ctxs && w.ctxs[p].copyBack == Some(s) && w.ctxs[p].buffer in w.live
    && 0 < n <= s.len <= |w.live[w.ctxs[p].buffer].bytes|
  }

  /** Every handler started has an array of exactly these bytes. */
  ghost predicate GiveBytes(fan: seq<Happening>, bytes: seq<Byte>)
    reads Arrays(fan)
  {
    forall i :: 0 <= i < |fan| ==>
      ArrayOf(fan[i]) != null && ArrayOf(fan[i]).Length == |bytes|
      && forall j :: 0 <= j < |bytes| ==> ArrayOf(fan[i])[j] == bytes[j]
  }

  /** The slice begins with these bytes. */
  ghost predicate HasFront(user: map<BufId, seq<Byte>>, buffer: Option<Slice>, front: seq<Byte>) {
    && buffer.Some? && InBounds(user, buffer.value) && |front| <= buffer.value.len
    && forall j :: 0 <= j < |front| ==> user[buffer.value.buf][buffer.value.off + j] == front[j]
  }

  /** The part of handleCompletion that follows the lookup of the operation; `front`: what its slice begins with. */
  method CompleteOne(c: Client, g: Process, id: OpId, source: nat, failure: Option<int>, ghost front: seq<Byte>)
      returns (ghost fan: seq<Happening>)
    requires g.Valid() && OpsOk(c) && id in c.ops
    requires front != [] ==> |front| == c.ops[id].size && HasFront(g.user, c.ops[id].buffer, front)
    modifies c`sends, c`receives, c`log, c.ops[id]
    ensures g.Valid() && OpsOk(c) && g.Abs() == old(g.Abs())
    ensures Specs(c) == old(Specs(c)) && BooksOf(c) == Booked(old(BooksOf(c)), Specs(c), Call(id, source, failure))
    ensures var op := c.ops[id];
            && AccountOf(c, op) == Settled(op, old(AccountOf(c, op)), source, failure, fan)
            && (!old(op.once) ==> Tells(c, op, fan))
            && (!old(op.once) && op.kind == Receive && front != [] ==> GiveBytes(fan, front))
  {
    assert forall j :: j in c.ops && j != id ==> c.ops[j] != c.ops[id];
    ghost var w, was := g.Abs(), AllFields(c);
    fan := CompleteOp(c, g, c.ops[id], source, failure, front);
    assert g.Abs() == w;
    OneChanged(was, AllFields(c), id);
  }

  lemma OneChanged<K, V>(m: map<K, V>, n: map<K, V>, k: K)
    requires k in m && m.Keys == n.Keys && forall j {:trigger n[j]} :: j in m && j != k ==> n[j] == m[j]
    ensures n == m[k := n[k]]
  {
  }

  method CompleteOp(c: Client, g: Process, op: Operation, source: nat, failure: Option<int>, ghost front: seq<Byte>)
      returns (ghost fan: seq<Happening>)
    requires op.Valid()
    requires front != [] ==> |front| == op.size && HasFront(g.user, op.buffer, front)
    modifies c`sends, c`receives, c`log, op
    ensures op.Valid()
    ensures AccountOf(c, op) == Settled(op, old(AccountOf(c, op)), source, failure, fan)
    ensures !old(op.once) ==> Tells(c, op, fan)
    ensures !old(op.once) && op.kind == Receive && front != [] ==> GiveBytes(fan, front)
  {
    if op.kind == Receive {
      op.source := source;
    }
    var err := if failure.Some? then Some(OpError(op.kind, failure.value)) else None;
    ghost var first := !op.once;
    fan := op.Complete(c, g, Result(op.size, err));
    if first && op.kind == Receive {
      FanTells(fan, c.receiveHandlers, op.result, Payload(g.user, op.buffer, op.size), op.source);
    }
  }

  // ---------------------------------------------------------------- many calls

  /** The calls in their order. */
  function BookedAll(b: Books, specs: map<OpId, Spec>, calls: seq<Call>): Books {
    if calls == [] then b
    else Booked(BookedAll(b, specs, calls[..|calls| - 1]), specs, calls[|calls| - 1])
  }

  lemma BookedSnoc(b: Books, specs: map<OpId, Spec>, calls: seq<Call>, call: Call)
    ensures BookedAll(b, specs, calls + [call]) == Booked(BookedAll(b, specs, calls), specs, call)
  {
    assert (calls + [call])[..|calls|] == calls;
  }

  /**
   The first call for an operation decides its result, with the error of that entry, unless it was complete before.
   */
  lemma {:induction false} FirstCallDecides(b: Books, specs: map<OpId, Spec>, calls: seq<Call>, id: OpId)
    requires id in b.fields && specs.Keys == b.fields.Keys
    ensures var t, first := BookedAll(b, specs, calls), FirstCall(calls, id);
            && t.fields.Keys == b.fields.Keys
            && var f, g := b.fields[id], t.fields[id];
               && g.release == f.release && (g.once <==> f.once || first.Some?)
               && (f.once || first == None ==> g.result == f.result)
               && (!f.once && first.Some? ==>
                     && g.completed && g.done && g.callbacks == []
                     && g.result == Result(specs[id].size,
                                           if first.value.Some? then Some(OpError(specs[id].kind, first.value.value))
                                           else None))
    decreases |calls|
  {
    if calls != [] {
      var n := |calls| - 1;
      FirstCallDecides(b, specs, calls[..n], id);
      FirstCallSnoc(calls[..n], calls[n], id);
      assert calls[..n] + [calls[n]] == calls;
    }
  }

  /** The operations of a kind that these calls complete with, or without, an error. */
  function Decided(b: Books, specs: map<OpId, Spec>, calls: seq<Call>, kind: Kind, failed: bool): set<OpId>
    requires specs.Keys == b.fields.Keys
  {
    set id | id in b.fields && specs[id].kind == kind && !b.fields[id].once && FirstCall(calls, id).Some?
             && FirstCall(calls, id).value.Some? == failed
  }

  lemma DecidedSnoc(b: Books, specs: map<OpId, Spec>, calls: seq<Call>, c: Call, kind: Kind, failed: bool)
    requires specs.Keys == b.fields.Keys
    ensures var more := Decided(b, specs, calls + [c], kind, failed);
            more == Decided(b, specs, calls, kind, failed)
              + if c.op in b.fields && specs[c.op].kind == kind && !b.fields[c.op].once
                   && FirstCall(calls, c.op) == None && c.failure.Some? == failed then {c.op} else {}
    ensures FirstCall(calls, c.op) == None ==> c.op !in Decided(b, specs, calls, kind, failed)
  {
    forall id ensures FirstCall(calls + [c], id)
                      == if FirstCall(calls, id).Some? then FirstCall(calls, id)
                         else if c.op == id then Some(c.failure) else None
    {
      FirstCallSnoc(calls, c, id);
    }
  }

  /** One more call makes one of the four sets larger by one, or none. */
  lemma OneMoreDecided(b: Books, specs: map<OpId, Spec>, calls: seq<Call>, c: Call, kind: Kind, failed: bool)
    requires specs.Keys == b.fields.Keys
    ensures |Decided(b, specs, calls + [c], kind, failed)|
            == |Decided(b, specs, calls, kind, failed)|
               + if c.op in b.fields && specs[c.op].kind == kind && !b.fields[c.op].once
                    && FirstCall(calls, c.op) == None && c.failure.Some? == failed then 1 else 0
  {
    DecidedSnoc(b, specs, calls, c, kind, failed);
  }

  /** The counters as those sets say. */
  function CountersOf(b: Books, specs: map<OpId, Spec>, calls: seq<Call>): (Stats, Stats)
    requires specs.Keys == b.fields.Keys
  {
    (Stats(b.sends.posted, b.sends.completed + |Decided(b, specs, calls, Send, false)|,
           b.sends.errored + |Decided(b, specs, calls, Send, true)|),
     Stats(b.receives.posted, b.receives.completed + |Decided(b, specs, calls, Receive, false)|,
           b.receives.errored + |Decided(b, specs, calls, Receive, true)|))
  }

  /** Every counter moves by the number of operations that were completed so. */
  lemma {:induction false} CountersCount(b: Books, specs: map<OpId, Spec>, calls: seq<Call>)
    requires specs.Keys == b.fields.Keys
    ensures var t := BookedAll(b, specs, calls);
            (t.sends, t.receives) == CountersOf(b, specs, calls)
    decreases |calls|
  {
    if calls == [] {
      forall kind, failed ensures Decided(b, specs, calls, kind, failed) == {} { }
    } else {
      var n := |calls| - 1;
      CountersCount(b, specs, calls[..n]);
      assert calls[..n] + [calls[n]] == calls;
      CountersStep(b, specs, calls[..n], calls[n]);
    }
  }

  lemma CountersStep(b: Books, specs: map<OpId, Spec>, calls: seq<Call>, c: Call)
    requires specs.Keys == b.fields.Keys
    requires var t := BookedAll(b, specs, calls);
             (t.sends, t.receives) == CountersOf(b, specs, calls)
    ensures var t := Booked(BookedAll(b, specs, calls), specs, c);
            (t.sends, t.receives) == CountersOf(b, specs, calls + [c])
  {
    OneMoreDecided(b, specs, calls, c, Send, false);
    OneMoreDecided(b, specs, calls, c, Send, true);
    OneMoreDecided(b, specs, calls, c, Receive, false);
    OneMoreDecided(b, specs, calls, c, Receive, true);
    BooksKeepKeys(b, specs, calls);
    if c.op in b.fields { FirstCallDecides(b, specs, calls, c.op); }
  }

  lemma {:induction false} BooksKeepKeys(b: Books, specs: map<OpId, Spec>, calls: seq<Call>)
    ensures BookedAll(b, specs, calls).fields.Keys == b.fields.Keys
    decreases |calls|
  {
    if calls != [] { BooksKeepKeys(b, specs, calls[..|calls| - 1]); }
  }

  // ---------------------------------------------------------------- dispatch

  /**
   dispatch, until it is stopped or the script is over: the world and the recorded error are those of `Run`, and the
   operations and counters are what the calls of `complete` of that run make of them.
   */
  method Dispatch(c: Client, g: Process, turns: seq<Turn>) returns (ghost calls: seq<Call>)
    requires g.Valid() && OpsOk(c)
    modifies g, g.registry.Values, c`sends, c`receives, c`log, c`dispatcherErr, c.ops.Values
    ensures g.Valid() && OpsOk(c)
    ensures Run(Progress(old(g.Abs()), old(c.dispatcherErr), []), turns, c.ops.Keys)
            == Progress(g.Abs(), c.dispatcherErr, calls)
    ensures BooksOf(c) == BookedAll(old(BooksOf(c)), Specs(c), calls)
  {
    var backoff := 1;
    var i := 0;
    calls := [];
    ghost var was, specs := BooksOf(c), Specs(c);
    ghost var all := Run(Progress(g.Abs(), c.dispatcherErr, []), turns, c.ops.Keys);
    while i < |turns|
      invariant i <= |turns| && backoff in {1, 2, 4, 8, 16}
      invariant g.Valid() && OpsOk(c) && g.registry.Values <= old(g.registry.Values)
      invariant Specs(c) == specs && BooksOf(c) == BookedAll(was, specs, calls)
      invariant all == Run(Progress(g.Abs(), c.dispatcherErr, calls), turns[i..], c.ops.Keys)
    {
      assert turns[i..][0] == turns[i] && turns[i..][1..] == turns[i + 1..];
      var stop, busy;
      stop, busy, calls := TurnOnce(c, g, turns[i], was, calls);
      i := i + 1;
      if stop {
        return;
      }
      if busy {
        backoff := 1;
      } else if backoff < 10 {
        backoff := backoff * 2;
      }
    }
  }

  method TurnOnce(c: Client, g: Process, turn: Turn, ghost was: Books, ghost calls: seq<Call>)
      returns (stop: bool, busy: bool, ghost more: seq<Call>)
    requires g.Valid() && OpsOk(c) && BooksOf(c) == BookedAll(was, Specs(c), calls)
    modifies g, g.registry.Values, c`sends, c`receives, c`log, c`dispatcherErr, c.ops.Values
    ensures g.Valid() && OpsOk(c) && g.registry.Values <= old(g.registry.Values)
    ensures Specs(c) == old(Specs(c)) && BooksOf(c) == BookedAll(was, Specs(c), more)
    ensures One(Progress(old(g.Abs()), old(c.dispatcherErr), calls), turn, c.ops.Keys)
            == Step(Progress(g.Abs(), c.dispatcherErr, more), stop)
  {
    if turn.stopped {
      return true, false, calls;
    }
    if turn.read.Entry? {
      more := HandleOne(c, g, turn.read.event.p, turn.read.event.source, None, was, calls);
      return false, true, more;
    }
    stop, busy, more := ErrorTurn(c, g, turn, was, calls);
  }

  /** The rest of a turn whose read of the success queue gave no entry. */
  method ErrorTurn(c: Client, g: Process, turn: Turn, ghost was: Books, ghost calls: seq<Call>)
      returns (stop: bool, busy: bool, ghost more: seq<Call>)
    requires g.Valid() && OpsOk(c) && BooksOf(c) == BookedAll(was, Specs(c), calls)
    requires !turn.stopped && !turn.read.Entry?
    modifies g, g.registry.Values, c`sends, c`receives, c`log, c`dispatcherErr, c.ops.Values
    ensures g.Valid() && OpsOk(c) && g.registry.Values <= old(g.registry.Values)
    ensures Specs(c) == old(Specs(c)) && BooksOf(c) == BookedAll(was, Specs(c), more)
    ensures One(Progress(old(g.Abs()), old(c.dispatcherErr), calls), turn, c.ops.Keys)
            == Step(Progress(g.Abs(), c.dispatcherErr, more), stop)
  {
    NoteError(c, g, ReadTrouble(turn.read), calls);
    if turn.readErr.Failure? {
      more := HandleOne(c, g, turn.readErr.entry.p, turn.readErr.entry.source, Some(turn.readErr.entry.errno), was,
                        calls);
      return false, true, more;
    }
    NoteError(c, g, ErrTrouble(turn.readErr), calls);
    return turn.stoppedAsleep, false, calls;
  }

  /** Recording an error changes nothing else. */
  method NoteError(c: Client, g: Process, e: Option<W.Error>, ghost calls: seq<Call>)
    requires g.Valid() && OpsOk(c)
    modifies c`dispatcherErr
    ensures g.Valid() && OpsOk(c) && BooksOf(c) == old(BooksOf(c)) && Specs(c) == old(Specs(c))
    ensures Progress(g.Abs(), c.dispatcherErr, calls) == Record(Progress(old(g.Abs()), old(c.dispatcherErr), calls), e)
  {
    RecordError(c, e);
  }

  /** One entry, with the account of the calls of `complete` so far. */
  method HandleOne(c: Client, g: Process, p: Addr, source: nat, failure: Option<int>, ghost was: Books,
                   ghost calls: seq<Call>) returns (ghost more: seq<Call>)
    requires g.Valid() && OpsOk(c) && BooksOf(c) == BookedAll(was, Specs(c), calls)
    modifies g, g.registry.Values, c`sends, c`receives, c`log, c.ops.Values
    ensures g.Valid() && OpsOk(c) && g.registry.Values <= old(g.registry.Values)
    ensures Specs(c) == old(Specs(c)) && BooksOf(c) == BookedAll(was, Specs(c), more)
    ensures Progress(g.Abs(), c.dispatcherErr, more)
            == Handle(Progress(old(g.Abs()), c.dispatcherErr, calls), p, source, failure, c.ops.Keys)
  {
    ghost var a, _ := HandleCompletion(c, g, p, source, failure);
    more := calls;
    if a.Some? {
      more := calls + [Call(a.value, source, failure)];
      BookedSnoc(was, Specs(c), calls, Call(a.value, source, failure));
    }
  }

  // ---------------------------------------------------------------- read errors

  /** The first read error in a script that the loop gets to see. */
  function FirstTrouble(turns: seq<Turn>): Option<W.Error>
    decreases |turns|
  {
    if turns == [] || turns[0].stopped then None
    else if turns[0].read.Entry? then FirstTrouble(turns[1..])
    else if ReadTrouble(turns[0].read).Some? then ReadTrouble(turns[0].read)
    else if turns[0].readErr.Failure? then FirstTrouble(turns[1..])
    else if ErrTrouble(turns[0].readErr).Some? then ErrTrouble(turns[0].readErr)
    else if turns[0].stoppedAsleep then None
    else FirstTrouble(turns[1..])
  }

  /** The dispatcher goes on after a read error; what it records is the first one, and an earlier record stays. */
  lemma {:induction false} FirstErrorStays(s: Progress, turns: seq<Turn>, ops: set<OpId>)
    ensures Run(s, turns, ops).err == if s.err.Some? then s.err else FirstTrouble(turns)
    decreases |turns|
  {
    if turns != [] {
      var r := One(s, turns[0], ops);
      if !r.stop { FirstErrorStays(r.progress, turns[1..], ops); }
    }
  }
}
