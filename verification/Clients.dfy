/** Operations, handlers and the dispatcher of client/client.go, run by one goroutine at a time. */
module Clients {
  import opened Basics
  import opened Runtime
  import opened Regions
  import Waiting

  type OpId = nat
  type HandlerId = nat
  type Handler = nat

  datatype Kind = Send | Receive

  /** The release closures that prepareSend and prepareReceive make. */
  datatype Closure = ToPool(region: MemoryRegion) | CloseRegion(region: MemoryRegion)

  datatype OpError = OpError(kind: Kind, errno: int)

  datatype Result = Result(length: nat, err: Option<OpError>)

  /** What a completion makes happen, in order; a start is a `go` statement. */
  datatype Happening =
    | Counted(kind: Kind, failed: bool)
    | StartedSend(id: HandlerId, handler: Handler, size: nat, err: Option<OpError>)
    | StartedReceive(id: HandlerId, handler: Handler, payload: array?<Byte>, source: nat, err: Option<OpError>)
    | RanRelease(closure: Closure)
    | DoneClosed(op: OpId)
    | StartedCallback(cb: Callback, result: Result)

  datatype Stats = Stats(posted: nat, completed: nat, errored: nat)

  /** A success moves the counter of completions by one, a failure that of errors. */
  predicate Counts(now: Stats, was: Stats, failed: bool) {
    && now.posted == was.posted
    && now.completed == was.completed + (if failed then 0 else 1)
    && now.errored == was.errored + (if failed then 1 else 0)
  }

  class Operation {
    const id: OpId
    const kind: Kind
    const size: nat
    const buffer: Option<Slice>       // receiveMeta.buffer
    var source: nat                   // receiveMeta.source
    var release: Option<Closure>
    var once: bool                    // once.Do has been entered
    var completed: bool
    var result: Result
    var callbacks: seq<Callback>
    var done: bool

    constructor (id: OpId, kind: Kind, size: nat, buffer: Option<Slice>)
      ensures this.id == id && this.kind == kind && this.size == size && this.buffer == buffer && source == 0
      ensures release == None && !once && !completed && callbacks == [] && !done
    {
      this.id, this.kind, this.size, this.buffer, source := id, kind, size, buffer, 0;
      release, once, completed, result, callbacks, done := None, false, false, Result(0, None), [], false;
    }

    ghost predicate Valid()
      reads this
    {
      (once <==> completed) && (completed <==> done) && (completed ==> callbacks == [])
    }

    /**
     complete: the first call stores the result, tells the client, runs the release closure, closes `done` and
     starts the callbacks, in that order.  Every later call does nothing.
     */
    method Complete(c: Client, g: Process, res: Result) returns (ghost fan: seq<Happening>)
      requires Valid()
      modifies this, c`sends, c`receives, c`log
      ensures Valid() && done
      ensures old(once) ==> unchanged(this) && unchanged(c)
      ensures !old(once) ==> result == res && callbacks == [] && release == old(release) && source == old(source)
      ensures !old(once) ==> if kind == Send then Counts(c.sends, old(c.sends), res.err.Some?)
                             else c.sends == old(c.sends)
      ensures !old(once) ==> if kind == Receive then Counts(c.receives, old(c.receives), res.err.Some?)
                             else c.receives == old(c.receives)
      ensures !old(once) && kind == Send ==> IsSendFan(fan, c.sendHandlers, c.sendHandlers.Keys, res)
      ensures !old(once) && kind == Receive ==>
                && IsReceiveFan(fan, c.receiveHandlers, c.receiveHandlers.Keys, res,
                                Payload(g.user, buffer, res.length), source)
                && fresh(Arrays(fan))
      // the handlers of a receive get what its slice holds, if that is long enough
      ensures !old(once) && kind == Receive && buffer.Some? && InBounds(g.user, buffer.value)
              && 0 < res.length <= buffer.value.len ==>
                GiveFront(fan, g.user, buffer.value, res.length)
      ensures !old(once) ==> c.log == old(c.log) + [Counted(kind, res.err.Some?)] + fan
                                      + Afterwards(id, old(release), old(callbacks), res)
    {
      if once {
        return [];
      }
      once := true;
      result := res;
      completed := true;
      var cbs := callbacks;
      callbacks := [];
      fan := c.Emit(g, this, res);
      Settle(c, cbs, res);
    }

    /** The end of `complete`: the release closure, the close of `done`, and the callbacks. */
    method Settle(c: Client, cbs: seq<Callback>, res: Result)
      modifies this`done, c`log
      ensures done && c.log == old(c.log) + Afterwards(id, release, cbs, res)
    {
      if release.Some? {
        c.log := c.log + [RanRelease(release.value)];
      }
      done := true;
      c.log := c.log + [DoneClosed(id)];
      c.StartCallbacks(cbs, res);
    }

    /** addCallback: kept until completion, or started at once with the result that completion stored. */
    method AddCallback(c: Client, cb: Option<Callback>)
      requires Valid()
      modifies this`callbacks, c`log
      ensures Valid()
      ensures cb == None ==> callbacks == old(callbacks) && c.log == old(c.log)
      ensures cb.Some? && completed ==> callbacks == [] && c.log == old(c.log) + [StartedCallback(cb.value, result)]
      ensures cb.Some? && !completed ==> callbacks == old(callbacks) + [cb.value] && c.log == old(c.log)
    {
      if cb == None {
        return;
      }
      if completed {
        c.log := c.log + [StartedCallback(cb.value, result)];
        return;
      }
      callbacks := callbacks + [cb.value];
    }

    /**
     Await with a context that is or is not cancelled: a closed `done` wins over cancellation; None means it blocks.
     */
    method Await(cancelled: bool) returns (r: Option<AwaitAnswer>)
      requires Valid()
      ensures r == if done then Some(Settled(result)) else if cancelled then Some(Cancelled) else None
    {
      if cancelled {
        if done {
          return Some(Settled(result));
        }
        return Some(Cancelled);
      }
      if done {
        return Some(Settled(result));
      }
      return None;
    }
  }

  datatype AwaitAnswer = Settled(result: Result) | Cancelled

  function Callbacks(cbs: seq<Callback>, res: Result): (r: seq<Happening>)
    ensures |r| == |cbs| && forall i :: 0 <= i < |cbs| ==> r[i] == StartedCallback(cbs[i], res)
  {
    seq(|cbs|, i requires 0 <= i < |cbs| => StartedCallback(cbs[i], res))
  }

  /** What follows the handlers: release, done, callbacks. */
  function Afterwards(id: OpId, release: Option<Closure>, cbs: seq<Callback>, res: Result): seq<Happening> {
    (if release.Some? then [RanRelease(release.value)] else []) + [DoneClosed(id)] + Callbacks(cbs, res)
  }

  /** The handlers that a part of the log starts. */
  function HandlersOf(fan: seq<Happening>): set<HandlerId> {
    set i | 0 <= i < |fan| && HandlerOf(fan[i]).Some? :: HandlerOf(fan[i]).value
  }

  function HandlerOf(h: Happening): Option<HandlerId> {
    if h.StartedSend? || h.StartedReceive? then Some(h.id) else None
  }

  function ArrayOf(h: Happening): array?<Byte> {
    if h.StartedReceive? then h.payload else null
  }

  lemma HandlersOfSnoc(fan: seq<Happening>, h: Happening)
    requires h.StartedSend? || h.StartedReceive?
    ensures HandlersOf(fan + [h]) == HandlersOf(fan) + {h.id}
  {
    var more := fan + [h];
    assert more[|fan|] == h;
    forall x | x in HandlersOf(fan) ensures x in HandlersOf(more) {
      var i :| 0 <= i < |fan| && HandlerOf(fan[i]) == Some(x);
      assert more[i] == fan[i];
    }
  }

  predicate StartsSend(h: Happening, handlers: map<HandlerId, Handler>, res: Result) {
    h.StartedSend? && h.id in handlers && h.handler == handlers[h.id] && h.size == res.length && h.err == res.err
  }

  /** Every handler in `ids` is started exactly once, and nothing else is. */
  ghost predicate IsSendFan(fan: seq<Happening>, handlers: map<HandlerId, Handler>, ids: set<HandlerId>, res: Result) {
    && (forall i {:trigger StartsSend(fan[i], handlers, res)} :: 0 <= i < |fan| ==> StartsSend(fan[i], handlers, res))
    && (forall i, j :: 0 <= i < j < |fan| ==> HandlerOf(fan[i]) != HandlerOf(fan[j]))
    && HandlersOf(fan) == ids
  }

  lemma SendFanGrows(fan: seq<Happening>, handlers: map<HandlerId, Handler>, ids: set<HandlerId>, res: Result,
                     h: Happening)
    requires IsSendFan(fan, handlers, ids, res) && StartsSend(h, handlers, res) && h.id !in ids
    ensures IsSendFan(fan + [h], handlers, ids + {h.id}, res)
  {
    HandlersOfSnoc(fan, h);
    var more := fan + [h];
    forall i | 0 <= i < |more| ensures StartsSend(more[i], handlers, res) {
      if i < |fan| { assert StartsSend(fan[i], handlers, res); }
    }
    forall i | 0 <= i < |fan| ensures HandlerOf(fan[i]) != HandlerOf(h) {
      assert StartsSend(fan[i], handlers, res);
      assert fan[i].id in HandlersOf(fan);
    }
  }

  /** One receive handler with a payload of its own. */
  ghost predicate StartsReceive(h: Happening, handlers: map<HandlerId, Handler>, res: Result, payload: seq<Byte>,
                                source: nat)
    reads if h.StartedReceive? && h.payload != null then {h.payload} else {}
  {
    && h.StartedReceive? && h.id in handlers && h.handler == handlers[h.id] && h.source == source && h.err == res.err
    && if payload == [] then h.payload == null else h.payload != null && h.payload[..] == payload
  }

  ghost function Arrays(fan: seq<Happening>): set<object> {
    set i | 0 <= i < |fan| && ArrayOf(fan[i]) != null :: ArrayOf(fan[i])
  }

  /** The same for receives; no two handlers share an array. */
  ghost predicate IsReceiveFan(fan: seq<Happening>, handlers: map<HandlerId, Handler>, ids: set<HandlerId>, res: Result,
                               payload: seq<Byte>, source: nat)
    reads Arrays(fan)
  {
    && (forall i {:trigger StartsReceive(fan[i], handlers, res, payload, source)} :: 0 <= i < |fan| ==>
          StartsReceive(fan[i], handlers, res, payload, source))
    && (forall i, j :: 0 <= i < j < |fan| ==>
        HandlerOf(fan[i]) != HandlerOf(fan[j]) && (payload != [] ==> ArrayOf(fan[i]) != ArrayOf(fan[j])))
    && HandlersOf(fan) == ids
  }

  /** Every receive handler is started exactly once, with this error and source, and nothing else is. */
  ghost predicate IsTold(fan: seq<Happening>, handlers: map<HandlerId, Handler>, err: Option<OpError>, source: nat) {
    && (forall i :: 0 <= i < |fan| ==>
          && fan[i].StartedReceive? && fan[i].id in handlers && fan[i].handler == handlers[fan[i].id]
          && fan[i].err == err && fan[i].source == source)
    && (forall i, j :: 0 <= i < j < |fan| ==> HandlerOf(fan[i]) != HandlerOf(fan[j]))
    && HandlersOf(fan) == handlers.Keys
  }

  lemma FanTells(fan: seq<Happening>, handlers: map<HandlerId, Handler>, res: Result, payload: seq<Byte>, source: nat)
    requires IsReceiveFan(fan, handlers, handlers.Keys, res, payload, source)
    ensures IsTold(fan, handlers, res.err, source)
  {
    assert forall i :: 0 <= i < |fan| ==> StartsReceive(fan[i], handlers, res, payload, source);
  }

  lemma ReceiveFanGrows(fan: seq<Happening>, handlers: map<HandlerId, Handler>, ids: set<HandlerId>, res: Result,
                        payload: seq<Byte>, source: nat, h: Happening)
    requires IsReceiveFan(fan, handlers, ids, res, payload, source) && StartsReceive(h, handlers, res, payload, source)
    requires h.id !in ids && (h.payload != null ==> h.payload !in Arrays(fan))
    ensures IsReceiveFan(fan + [h], handlers, ids + {h.id}, res, payload, source)
  {
    HandlersOfSnoc(fan, h);
    var more := fan + [h];
    forall i | 0 <= i < |more| ensures StartsReceive(more[i], handlers, res, payload, source) {
      if i < |fan| { assert StartsReceive(fan[i], handlers, res, payload, source); }
    }
    forall i | 0 <= i < |fan|
      ensures HandlerOf(fan[i]) != HandlerOf(h) && (payload != [] ==> ArrayOf(fan[i]) != ArrayOf(h))
    {
      assert StartsReceive(fan[i], handlers, res, payload, source);
      assert fan[i].id in HandlersOf(fan);
      if payload != [] { assert fan[i].payload in Arrays(fan); }
    }
  }

  /** The bytes a receive handler is given: the front of the caller's slice, or zeros if that is too short. */
  function Payload(user: map<BufId, seq<Byte>>, buffer: Option<Slice>, n: nat): (r: seq<Byte>)
    ensures |r| == n
    ensures buffer.Some? && InBounds(user, buffer.value) && n <= buffer.value.len ==>
              forall j :: 0 <= j < n ==> r[j] == user[buffer.value.buf][buffer.value.off + j]
    ensures buffer == None || n > buffer.value.len ==> forall j :: 0 <= j < n ==> r[j] == 0
  {
    if buffer.Some? && InBounds(user, buffer.value) && n <= buffer.value.len then Load(user, buffer.value)[..n]
    else seq(n, _ => 0)
  }

  /** Every handler started has an array of `n` bytes, those at the front of the slice. */
  ghost predicate GiveFront(fan: seq<Happening>, user: map<BufId, seq<Byte>>, s: Slice, n: nat)
    requires InBounds(user, s) && n <= s.len
    reads Arrays(fan)
  {
    forall i :: 0 <= i < |fan| ==>
      var a := ArrayOf(fan[i]);
      a != null && a.Length == n && forall j :: 0 <= j < n ==> a[j] == user[s.buf][s.off + j]
  }

  /** What a fan with this payload gives its handlers. */
  lemma FanGivesFront(fan: seq<Happening>, handlers: map<HandlerId, Handler>, res: Result, payload: seq<Byte>,
                      source: nat, user: map<BufId, seq<Byte>>, s: Slice)
    requires IsReceiveFan(fan, handlers, handlers.Keys, res, payload, source)
    requires InBounds(user, s) && 0 < |payload| <= s.len
    requires forall j :: 0 <= j < |payload| ==> payload[j] == user[s.buf][s.off + j]
    ensures GiveFront(fan, user, s, |payload|)
  {
    forall i | 0 <= i < |fan|
      ensures ArrayOf(fan[i]) != null && ArrayOf(fan[i]).Length == |payload|
              && forall j :: 0 <= j < |payload| ==> ArrayOf(fan[i])[j] == user[s.buf][s.off + j]
    {
      assert StartsReceive(fan[i], handlers, res, payload, source);
      var a := ArrayOf(fan[i]);
      assert forall j :: 0 <= j < a.Length ==> a[j] == a[..][j];
    }
  }

  // ---------------------------------------------------------------- handler registration

  datatype Act = Register(kind: Kind, handler: Handler) | Unregister(kind: Kind, id: HandlerId)

  /** The registered handlers of both kinds, and the last identifier handed out. */
  datatype Table = Table(sends: map<HandlerId, Handler>, receives: map<HandlerId, Handler>, last: HandlerId)

  function OfKind(t: Table, kind: Kind): map<HandlerId, Handler> {
    if kind == Send then t.sends else t.receives
  }

  function Played(t: Table, a: Act): Table {
    match a
    case Register(Send, h) => Table(t.sends[t.last + 1 := h], t.receives, t.last + 1)
    case Register(Receive, h) => Table(t.sends, t.receives[t.last + 1 := h], t.last + 1)
    case Unregister(Send, id) => t.(sends := t.sends - {id})
    case Unregister(Receive, id) => t.(receives := t.receives - {id})
  }

  function PlayedAll(acts: seq<Act>): Table {
    if acts == [] then Table(map[], map[], 0) else Played(PlayedAll(acts[..|acts| - 1]), acts[|acts| - 1])
  }

  /** The registration at position `i` of a history handed out `id`. */
  predicate Issues(acts: seq<Act>, i: nat, kind: Kind, id: HandlerId, h: Handler) {
    i < |acts| && acts[i] == Register(kind, h) && PlayedAll(acts[..i]).last + 1 == id
  }

  /** Nothing after position `i` unregisters `id`. */
  predicate Kept(acts: seq<Act>, i: nat, kind: Kind, id: HandlerId) {
    forall j :: i < j < |acts| ==> acts[j] != Unregister(kind, id)
  }

  lemma {:induction false} IdsAreHandedOut(acts: seq<Act>, id: HandlerId)
    requires id in PlayedAll(acts).sends || id in PlayedAll(acts).receives
    ensures id <= PlayedAll(acts).last
    decreases |acts|
  {
    var before := acts[..|acts| - 1];
    if id in PlayedAll(before).sends || id in PlayedAll(before).receives { IdsAreHandedOut(before, id); }
  }

  predicate Has(t: Table, kind: Kind, id: HandlerId, h: Handler) {
    id in OfKind(t, kind) && OfKind(t, kind)[id] == h
  }

  lemma {:induction false} IssuedIsRegistered(acts: seq<Act>, i: nat, kind: Kind, id: HandlerId, h: Handler)
    requires Issues(acts, i, kind, id, h) && Kept(acts, i, kind, id)
    ensures Has(PlayedAll(acts), kind, id, h)
    decreases |acts|
  {
    var n := |acts| - 1;
    if i < n {
      var before := acts[..n];
      assert before[..i] == acts[..i] && before[i] == acts[i];
      assert forall j :: i < j < n ==> before[j] == acts[j];
      IssuedIsRegistered(before, i, kind, id, h);
      IdsAreHandedOut(before, id);
      assert acts[n] != Unregister(kind, id);
    }
  }

  lemma {:induction false} RegisteredWasIssued(acts: seq<Act>, kind: Kind, id: HandlerId, h: Handler) returns (i: nat)
    requires Has(PlayedAll(acts), kind, id, h)
    ensures Issues(acts, i, kind, id, h) && Kept(acts, i, kind, id)
    decreases |acts|
  {
    var n := |acts| - 1;
    var before, last := acts[..n], acts[n];
    if last.Register? && last.kind == kind && PlayedAll(before).last + 1 == id {
      i := n;
    } else {
      i := RegisteredWasIssued(before, kind, id, h);
      assert before[..i] == acts[..i] && before[i] == acts[i];
      assert forall j :: i < j < n ==> acts[j] == before[j];
    }
  }

  /**
   After any history of registrations and unregistrations a handler of a kind is in the table under an identifier
   exactly if the registration that handed out the identifier was for it, and nothing since has unregistered that
   identifier: an unregister removes its own handler and no other.
   */
  lemma RegisteredExactly(acts: seq<Act>, kind: Kind, id: HandlerId, h: Handler)
    ensures Has(PlayedAll(acts), kind, id, h)
            <==> exists i: nat :: Issues(acts, i, kind, id, h) && Kept(acts, i, kind, id)
  {
    if i: nat :| Issues(acts, i, kind, id, h) && Kept(acts, i, kind, id) { IssuedIsRegistered(acts, i, kind, id, h); }
    if Has(PlayedAll(acts), kind, id, h) { var i := RegisteredWasIssued(acts, kind, id, h); }
  }

  class Client {
    var closed: bool
    var sends: Stats
    var receives: Stats
    var sendHandlers: map<HandlerId, Handler>
    var receiveHandlers: map<HandlerId, Handler>
    var handlerSeq: nat
    var dispatcherErr: Option<Waiting.Error>
    var ops: map<OpId, Operation>     // operations that contexts refer to
    var nextOp: OpId
    var log: seq<Happening>

    constructor ()
      ensures !closed && sends == receives == Stats(0, 0, 0) && sendHandlers == receiveHandlers == map[]
      ensures handlerSeq == 0 && dispatcherErr == None && ops == map[] && log == [] && nextOp == 0
    {
      closed, sends, receives, sendHandlers, receiveHandlers := false, Stats(0, 0, 0), Stats(0, 0, 0), map[], map[];
      handlerSeq, dispatcherErr, ops, log, nextOp := 0, None, map[], [], 0;
    }

    ghost function Handlers(): Table
      reads this`sendHandlers, this`receiveHandlers, this`handlerSeq
    {
      Table(sendHandlers, receiveHandlers, handlerSeq)
    }

    /** Every handler identifier was handed out by the sequence. */
    ghost predicate HandlersOk()
      reads this`sendHandlers, this`receiveHandlers, this`handlerSeq
    {
      && (forall id :: id in sendHandlers ==> id <= handlerSeq)
      && (forall id :: id in receiveHandlers ==> id <= handlerSeq)
    }

    ghost predicate OpsNumbered()
      reads this`ops, this`nextOp
    {
      forall id :: id in ops ==> id < nextOp
    }

    /** newOperation. */
    method NewOperation(kind: Kind, size: nat, buffer: Option<Slice>, release: Option<Closure>) returns (op: Operation)
      requires OpsNumbered()
      modifies this`nextOp
      ensures OpsNumbered() && fresh(op) && op.Valid() && op.id !in ops && op.id < nextOp && old(nextOp) <= op.id
      ensures op.kind == kind && op.size == size && op.buffer == buffer && op.release == release && !op.once
      ensures op.callbacks == []
    {
      op := new Operation(nextOp, kind, size, buffer);
      op.release := release;
      nextOp := nextOp + 1;
    }

    /** Registers a handler; the identifier is what the returned function will unregister. */
    method RegisterSendHandler(h: Option<Handler>) returns (id: Option<HandlerId>)
      requires HandlersOk()
      modifies this`sendHandlers, this`handlerSeq
      ensures HandlersOk()
      ensures h == None ==> id == None && sendHandlers == old(sendHandlers)
      ensures Handlers() == (if h.Some? then Played(old(Handlers()), Register(Send, h.value)) else old(Handlers()))
      ensures h.Some? ==> id == Some(handlerSeq) && id.value !in old(sendHandlers) && id.value !in receiveHandlers
                          && sendHandlers == old(sendHandlers)[id.value := h.value]
    {
      if h == None {
        return None;
      }
      handlerSeq := handlerSeq + 1;
      sendHandlers := sendHandlers[handlerSeq := h.value];
      return Some(handlerSeq);
    }

    method RegisterReceiveHandler(h: Option<Handler>) returns (id: Option<HandlerId>)
      requires HandlersOk()
      modifies this`receiveHandlers, this`handlerSeq
      ensures HandlersOk()
      ensures h == None ==> id == None && receiveHandlers == old(receiveHandlers)
      ensures Handlers() == (if h.Some? then Played(old(Handlers()), Register(Receive, h.value)) else old(Handlers()))
      ensures h.Some? ==> id == Some(handlerSeq) && id.value !in old(receiveHandlers) && id.value !in sendHandlers
                          && receiveHandlers == old(receiveHandlers)[id.value := h.value]
    {
      if h == None {
        return None;
      }
      handlerSeq := handlerSeq + 1;
      receiveHandlers := receiveHandlers[handlerSeq := h.value];
      return Some(handlerSeq);
    }

    method UnregisterSend(id: Option<HandlerId>)
      requires HandlersOk()
      modifies this`sendHandlers
      ensures HandlersOk()
      ensures Handlers() == if id == None then old(Handlers()) else Played(old(Handlers()), Unregister(Send, id.value))
    {
      if id.Some? {
        sendHandlers := sendHandlers - {id.value};
      }
    }

    method UnregisterReceive(id: Option<HandlerId>)
      requires HandlersOk()
      modifies this`receiveHandlers
      ensures HandlersOk()
      ensures Handlers() == if id == None then old(Handlers())
                else Played(old(Handlers()), Unregister(Receive, id.value))
    {
      if id.Some? {
        receiveHandlers := receiveHandlers - {id.value};
      }
    }

    method StartCallbacks(cbs: seq<Callback>, res: Result)
      modifies this`log
      ensures log == old(log) + Callbacks(cbs, res)
    {
      var i := 0;
      while i < |cbs|
        invariant 0 <= i <= |cbs|
        invariant log == old(log) + Callbacks(cbs, res)[..i]
      {
        log := log + [StartedCallback(cbs[i], res)];
        i := i + 1;
      }
    }

    /** emit: the counter, then a goroutine for every handler of the kind, in any order. */
    method Emit(g: Process, op: Operation, res: Result) returns (ghost fan: seq<Happening>)
      modifies this`sends, this`receives, this`log
      ensures if op.kind == Send then Counts(sends, old(sends), res.err.Some?) else sends == old(sends)
      ensures if op.kind == Receive then Counts(receives, old(receives), res.err.Some?) else receives == old(receives)
      ensures log == old(log) + [Counted(op.kind, res.err.Some?)] + fan
      ensures op.kind == Send ==> IsSendFan(fan, sendHandlers, sendHandlers.Keys, res)
      ensures op.kind == Receive ==>
                && IsReceiveFan(fan, receiveHandlers, receiveHandlers.Keys, res, Payload(g.user, op.buffer, res.length),
                                op.source)
                && fresh(Arrays(fan))
      // the handlers of a receive get what its slice holds, if that is long enough
      ensures op.kind == Receive && op.buffer.Some? && InBounds(g.user, op.buffer.value)
              && 0 < res.length <= op.buffer.value.len ==>
                GiveFront(fan, g.user, op.buffer.value, res.length)
    {
      log := log + [Counted(op.kind, res.err.Some?)];
      if op.kind == Send {
        sends := if res.err.Some? then sends.(errored := sends.errored + 1)
                 else sends.(completed := sends.completed + 1);
        fan := FanOutSend(res);
      } else {
        receives := if res.err.Some? then receives.(errored := receives.errored + 1)
                    else receives.(completed := receives.completed + 1);
        var payload := Payload(g.user, op.buffer, res.length);
        fan := FanOutReceive(res, payload, op.source);
        if op.buffer.Some? && InBounds(g.user, op.buffer.value) && 0 < res.length <= op.buffer.value.len {
          FanGivesFront(fan, receiveHandlers, res, payload, op.source, g.user, op.buffer.value);
        }
      }
    }

    method FanOutSend(res: Result) returns (ghost fan: seq<Happening>)
      modifies this`log
      ensures log == old(log) + fan && IsSendFan(fan, sendHandlers, sendHandlers.Keys, res)
    {
      fan := [];
      var todo := sendHandlers.Keys;
      while todo != {}
        invariant todo <= sendHandlers.Keys
        invariant log == old(log) + fan
        invariant IsSendFan(fan, sendHandlers, sendHandlers.Keys - todo, res)
        decreases |todo|
      {
        var id :| id in todo;
        ghost var more := StartSend(id, res, fan, sendHandlers.Keys - todo);
        assert log == old(log) + more;
        fan := more;
        assert sendHandlers.Keys - todo + {id} == sendHandlers.Keys - (todo - {id});
        todo := todo - {id};
      }
    }

    method StartSend(id: HandlerId, res: Result, ghost fan: seq<Happening>, ghost ids: set<HandlerId>)
        returns (ghost more: seq<Happening>)
      requires id in sendHandlers && id !in ids && IsSendFan(fan, sendHandlers, ids, res)
      modifies this`log
      ensures |more| == |fan| + 1 && more == fan + [more[|fan|]] && log == old(log) + [more[|fan|]]
      ensures IsSendFan(more, sendHandlers, ids + {id}, res)
    {
      var start := StartedSend(id, sendHandlers[id], res.length, res.err);
      SendFanGrows(fan, sendHandlers, ids, res, start);
      log := log + [start];
      more := fan + [start];
    }

    method FanOutReceive(res: Result, payload: seq<Byte>, source: nat) returns (ghost fan: seq<Happening>)
      modifies this`log
      ensures log == old(log) + fan && IsReceiveFan(fan, receiveHandlers, receiveHandlers.Keys, res, payload, source)
      ensures fresh(Arrays(fan))
    {
      fan := [];
      var todo := receiveHandlers.Keys;
      while todo != {}
        invariant todo <= receiveHandlers.Keys
        invariant log == old(log) + fan
        invariant fresh(Arrays(fan))
        invariant IsReceiveFan(fan, receiveHandlers, receiveHandlers.Keys - todo, res, payload, source)
        decreases |todo|
      {
        var id :| id in todo;
        ghost var more := StartReceive(id, res, payload, source, fan, receiveHandlers.Keys - todo);
        assert log == old(log) + more;
        fan := more;
        assert receiveHandlers.Keys - todo + {id} == receiveHandlers.Keys - (todo - {id});
        todo := todo - {id};
      }
    }

    method StartReceive(id: HandlerId, res: Result, payload: seq<Byte>, source: nat, ghost fan: seq<Happening>,
                        ghost ids: set<HandlerId>) returns (ghost more: seq<Happening>)
      requires id in receiveHandlers && id !in ids && IsReceiveFan(fan, receiveHandlers, ids, res, payload, source)
      modifies this`log
      ensures |more| == |fan| + 1 && more == fan + [more[|fan|]] && log == old(log) + [more[|fan|]]
      ensures IsReceiveFan(more, receiveHandlers, ids + {id}, res, payload, source)
      ensures fresh(Arrays(more) - Arrays(fan))
    {
      var copied := Copy(payload);
      var start := StartedReceive(id, receiveHandlers[id], copied, source, res.err);
      ReceiveFanGrows(fan, receiveHandlers, ids, res, payload, source, start);
      log := log + [start];
      more := fan + [start];
      assert forall a :: a in Arrays(more) ==> a in Arrays(fan) || a == copied;
    }
  }

  /** A copy of the payload in an array of its own; none if it is empty. */
  method Copy(payload: seq<Byte>) returns (a: array?<Byte>)
    ensures payload == [] ==> a == null
    ensures payload != [] ==> a != null && fresh(a) && a[..] == payload
  {
    if payload == [] {
      return null;
    }
    a := new Byte[|payload|](i requires 0 <= i < |payload| => payload[i]);
  }
}
