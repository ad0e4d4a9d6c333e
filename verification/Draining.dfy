/** What the dispatcher makes of the entries and errors it reads, for every script of the queue. */
module Draining {
  import opened Basics
  import opened Runtime
  import opened Clients
  import opened Dispatching
  import W = Waiting
  import S = Sending

  /** An entry the loop has read: its pointer and source, and its error if it came from the error queue. */
  datatype Seen = Seen(p: Addr, source: nat, failure: Option<int>)

  /** The entry of one turn, if the loop gets to see one. */
  function SeenIn(turn: Turn): Option<Seen> {
    if turn.stopped then None
    else if turn.read.Entry? then Some(Seen(turn.read.event.p, turn.read.event.source, None))
    else if turn.readErr.Failure? then
      var e := turn.readErr.entry;
      Some(Seen(e.p, e.source, Some(e.errno)))
    else None
  }

  predicate Stops(turn: Turn) {
    turn.stopped || (SeenIn(turn) == None && turn.stoppedAsleep)
  }

  /** The entries that the loop gets to see before it stops. */
  function Reached(turns: seq<Turn>): seq<Seen>
    decreases |turns|
  {
    if turns == [] || Stops(turns[0]) then []
    else if SeenIn(turns[0]).Some? then [SeenIn(turns[0]).value] + Reached(turns[1..])
    else Reached(turns[1..])
  }

  /** Entries handled one after the other. */
  function HandleAll(s: Progress, es: seq<Seen>, ops: set<OpId>): Progress
    decreases |es|
  {
    if es == [] then s else HandleAll(Handle(s, es[0].p, es[0].source, es[0].failure, ops), es[1..], ops)
  }

  /** The error, if it is one, of the first entry with this pointer, if there is one. */
  function FirstWith(es: seq<Seen>, q: Addr): Option<Option<int>>
    decreases |es|
  {
    if es == [] then None else if es[0].p == q then Some(es[0].failure) else FirstWith(es[1..], q)
  }

  function Pointers(es: seq<Seen>): set<Addr> {
    set e | e in es :: e.p
  }

  // ---------------------------------------------------------------- every script

  lemma {:induction false} HandlingIgnoresErr(s: Progress, e: Option<W.Error>, es: seq<Seen>, ops: set<OpId>)
    ensures HandleAll(s.(err := e), es, ops) == HandleAll(s, es, ops).(err := e)
    decreases |es|
  {
    if es != [] { HandlingIgnoresErr(Handle(s, es[0].p, es[0].source, es[0].failure, ops), e, es[1..], ops); }
  }

  function HandleSeen(s: Progress, e: Option<Seen>, ops: set<OpId>): Progress {
    if e.Some? then Handle(s, e.value.p, e.value.source, e.value.failure, ops) else s
  }

  lemma OneHandlesSeen(s: Progress, turn: Turn, ops: set<OpId>)
    ensures var r := One(s, turn, ops);
            r.stop == Stops(turn) && r.progress == HandleSeen(s, SeenIn(turn), ops).(err := r.progress.err)
  {
  }

  /**
   Whatever the queue answers and whenever the loop is stopped: it handles the entries it gets to see in their order,
   and records the first read error; neither depends on the other.
   */
  lemma {:induction false} RunHandlesReached(s: Progress, turns: seq<Turn>, ops: set<OpId>)
    ensures Run(s, turns, ops)
            == HandleAll(s, Reached(turns), ops).(err := if s.err.Some? then s.err else FirstTrouble(turns))
    decreases |turns|
  {
    FirstErrorStays(s, turns, ops);
    if turns != [] {
      var r := One(s, turns[0], ops).progress;
      OneHandlesSeen(s, turns[0], ops);
      if !Stops(turns[0]) {
        RunHandlesReached(r, turns[1..], ops);
        HandlingIgnoresErr(HandleSeen(s, SeenIn(turns[0]), ops), r.err, Reached(turns[1..]), ops);
        ReachedOn(s, turns, ops);
      }
    }
  }

  lemma ReachedOn(s: Progress, turns: seq<Turn>, ops: set<OpId>)
    requires turns != [] && !Stops(turns[0])
    ensures HandleAll(s, Reached(turns), ops)
              == HandleAll(HandleSeen(s, SeenIn(turns[0]), ops), Reached(turns[1..]), ops)
  {
    if SeenIn(turns[0]).Some? {
      assert Reached(turns)[1..] == Reached(turns[1..]);
    }
  }

  /** Handling takes the contexts of the entries out of the registry, and no other. */
  lemma {:induction false} HandlingDeregisters(s: Progress, es: seq<Seen>, ops: set<OpId>)
    ensures HandleAll(s, es, ops).world.ctxs == s.world.ctxs - Pointers(es)
    decreases |es|
  {
    if es != [] {
      HandlingDeregisters(Handle(s, es[0].p, es[0].source, es[0].failure, ops), es[1..], ops);
      assert es == [es[0]] + es[1..];
      assert Pointers(es) == {es[0].p} + Pointers(es[1..]);
    }
  }

  /** How often `complete` was called for an operation. */
  function Count(calls: seq<Call>, op: OpId): nat {
    if calls == [] then 0 else (if calls[0].op == op then 1 else 0) + Count(calls[1..], op)
  }

  lemma {:induction false} CountSnoc(calls: seq<Call>, c: Call, op: OpId)
    ensures Count(calls + [c], op) == Count(calls, op) + if c.op == op then 1 else 0
  {
    if calls != [] {
      assert (calls + [c])[1..] == calls[1..] + [c];
      CountSnoc(calls[1..], c, op);
    }
  }

  /** `q` is the only registered context that the operation is attached to. */
  predicate AttachedAt(w: World, q: Addr, op: OpId) {
    q in w.ctxs && w.ctxs[q].value == Some(op) && forall r :: r in w.ctxs && r != q ==> w.ctxs[r].value != Some(op)
  }

  predicate Detached(w: World, op: OpId) {
    forall r :: r in w.ctxs ==> w.ctxs[r].value != Some(op)
  }

  /** One entry adds at most the call for the operation it finds. */
  lemma HandleCounts(s: Progress, e: Seen, ops: set<OpId>, op: OpId)
    ensures var t := Handle(s, e.p, e.source, e.failure, ops);
            var hit := Attached(s.world, e.p, ops) == Some(op);
            && Count(t.calls, op) == Count(s.calls, op) + (if hit then 1 else 0)
            && FirstCall(t.calls, op)
               == if FirstCall(s.calls, op).Some? then FirstCall(s.calls, op) else if hit then Some(e.failure) else None
  {
    var a := Attached(s.world, e.p, ops);
    if a.Some? {
      CountSnoc(s.calls, Call(a.value, e.source, e.failure), op);
      FirstCallSnoc(s.calls, Call(a.value, e.source, e.failure), op);
    } else {
      assert Handle(s, e.p, e.source, e.failure, ops).calls == s.calls;
    }
  }

  /** An operation attached to no registered context is not touched. */
  lemma {:induction false} DetachedStays(s: Progress, es: seq<Seen>, ops: set<OpId>, op: OpId)
    requires Detached(s.world, op)
    ensures var t := HandleAll(s, es, ops);
            && Detached(t.world, op) && Count(t.calls, op) == Count(s.calls, op)
            && FirstCall(t.calls, op) == FirstCall(s.calls, op)
    decreases |es|
  {
    if es != [] {
      HandleCounts(s, es[0], ops, op);
      DetachedStays(Handle(s, es[0].p, es[0].source, es[0].failure, ops), es[1..], ops, op);
    }
  }

  lemma {:induction false} HandlingCompletesOnce(s: Progress, es: seq<Seen>, ops: set<OpId>, q: Addr, op: OpId)
    requires AttachedAt(s.world, q, op) && op in ops && Count(s.calls, op) == 0 && FirstCall(s.calls, op) == None
    ensures var t := HandleAll(s, es, ops);
            && Count(t.calls, op) == (if FirstWith(es, q).Some? then 1 else 0)
            && FirstCall(t.calls, op) == FirstWith(es, q)
    decreases |es|
  {
    if es != [] {
      var t := Handle(s, es[0].p, es[0].source, es[0].failure, ops);
      HandleCounts(s, es[0], ops, op);
      if es[0].p == q {
        DetachedStays(t, es[1..], ops, op);
      } else {
        HandlingCompletesOnce(t, es[1..], ops, q, op);
      }
    }
  }

  /**
   For every script: an operation attached to one registered context is completed exactly once if the loop gets to see
   an entry with its pointer, and not at all otherwise; with an error exactly if the first such entry is from the error
   queue.  Later entries with that pointer, entries with unknown pointers and read errors change nothing in this.
   */
  lemma CompletedExactlyOnce(s: Progress, turns: seq<Turn>, ops: set<OpId>, q: Addr, op: OpId)
    requires AttachedAt(s.world, q, op) && op in ops && s.calls == []
    ensures var t := Run(s, turns, ops);
            && Count(t.calls, op) == (if FirstWith(Reached(turns), q).Some? then 1 else 0)
            && FirstCall(t.calls, op) == FirstWith(Reached(turns), q)
  {
    RunHandlesReached(s, turns, ops);
    HandlingCompletesOnce(s, Reached(turns), ops, q, op);
  }

  // ---------------------------------------------------------------- draining two finite queues

  /**
   The script serves exactly these two queues, in any interleaving, with any idle turns and read errors, and no stop.
   */
  predicate Serves(turns: seq<Turn>, es: seq<W.Event>, fs: seq<ErrorEntry>)
    decreases |turns|
  {
    if turns == [] then es == [] && fs == []
    else
      !turns[0].stopped && !turns[0].stoppedAsleep &&
      if turns[0].read.Entry? then es != [] && turns[0].read.event == es[0] && Serves(turns[1..], es[1..], fs)
      else if turns[0].readErr.Failure? then
        fs != [] && turns[0].readErr.entry == fs[0] && Serves(turns[1..], es, fs[1..])
      else Serves(turns[1..], es, fs)
  }

  function OfQueue(seen: seq<Seen>, failed: bool): seq<Addr>
    decreases |seen|
  {
    if seen == [] then []
    else (if seen[0].failure.Some? == failed then [seen[0].p] else []) + OfQueue(seen[1..], failed)
  }

  function EventPointers(es: seq<W.Event>): seq<Addr> {
    seq(|es|, i requires 0 <= i < |es| => es[i].p)
  }

  function ErrorPointers(fs: seq<ErrorEntry>): seq<Addr> {
    seq(|fs|, i requires 0 <= i < |fs| => fs[i].p)
  }

  /** The loop gets to see every entry of both queues once, each queue in its order. */
  lemma {:induction false} ServedIsReached(turns: seq<Turn>, es: seq<W.Event>, fs: seq<ErrorEntry>)
    requires Serves(turns, es, fs)
    ensures |Reached(turns)| == |es| + |fs|
    ensures OfQueue(Reached(turns), false) == EventPointers(es) && OfQueue(Reached(turns), true) == ErrorPointers(fs)
    decreases |turns|
  {
    if turns != [] {
      var r := Reached(turns[1..]);
      if turns[0].read.Entry? {
        ServedIsReached(turns[1..], es[1..], fs);
        assert Reached(turns)[1..] == r;
        assert EventPointers(es) == [es[0].p] + EventPointers(es[1..]);
      } else if turns[0].readErr.Failure? {
        ServedIsReached(turns[1..], es, fs[1..]);
        assert Reached(turns)[1..] == r;
        assert ErrorPointers(fs) == [fs[0].p] + ErrorPointers(fs[1..]);
      } else {
        ServedIsReached(turns[1..], es, fs);
      }
    }
  }

  lemma {:induction false} FirstIsOfItsQueue(seen: seq<Seen>, q: Addr)
    ensures FirstWith(seen, q).Some? <==> q in Pointers(seen)
    ensures q in Pointers(seen) <==> q in OfQueue(seen, false) || q in OfQueue(seen, true)
    ensures FirstWith(seen, q).Some? ==> q in OfQueue(seen, FirstWith(seen, q).value.Some?)
    decreases |seen|
  {
    if seen != [] {
      FirstIsOfItsQueue(seen[1..], q);
      assert seen == [seen[0]] + seen[1..];
      assert Pointers(seen) == {seen[0].p} + Pointers(seen[1..]);
    }
  }

  lemma ServedPointers(turns: seq<Turn>, es: seq<W.Event>, fs: seq<ErrorEntry>, p: Addr)
    requires Serves(turns, es, fs)
    ensures p in Pointers(Reached(turns)) <==> p in EventPointers(es) || p in ErrorPointers(fs)
  {
    ServedIsReached(turns, es, fs);
    FirstIsOfItsQueue(Reached(turns), p);
  }

  /**
   The drain: with no stop and both queues finite, every entry is handled, exactly the contexts of the entries leave the
   registry, and the recorded error is the first read error of the script.
   */
  lemma DrainDeregisters(w: World, turns: seq<Turn>, es: seq<W.Event>, fs: seq<ErrorEntry>, ops: set<OpId>, p: Addr)
    requires Serves(turns, es, fs)
    ensures var t := Run(Progress(w, None, []), turns, ops);
            && t.err == FirstTrouble(turns)
            && (p in t.world.ctxs <==> p in w.ctxs && p !in EventPointers(es) && p !in ErrorPointers(fs))
  {
    var s := Progress(w, None, []);
    RunHandlesReached(s, turns, ops);
    HandlingDeregisters(s, Reached(turns), ops);
    ServedPointers(turns, es, fs, p);
  }

  /**
   And an operation attached to one registered context is completed exactly once if an entry of either queue carries its
   pointer, with an error only if the error queue has one and without only if the other has one.
   */
  lemma DrainCompletesEachOnce(w: World, turns: seq<Turn>, es: seq<W.Event>, fs: seq<ErrorEntry>, ops: set<OpId>,
                               q: Addr, op: OpId)
    requires Serves(turns, es, fs) && AttachedAt(w, q, op) && op in ops
    ensures var t := Run(Progress(w, None, []), turns, ops);
            && Count(t.calls, op) == (if q in EventPointers(es) || q in ErrorPointers(fs) then 1 else 0)
            && (FirstCall(t.calls, op) == Some(None) ==> q in EventPointers(es))
            && (FirstCall(t.calls, op).Some? && FirstCall(t.calls, op).value.Some? ==> q in ErrorPointers(fs))
            && (FirstCall(t.calls, op) == None ==> q !in EventPointers(es) && q !in ErrorPointers(fs))
  {
    CompletedExactlyOnce(Progress(w, None, []), turns, ops, q, op);
    ServedIsReached(turns, es, fs);
    FirstIsOfItsQueue(Reached(turns), q);
  }

  /** The plainest such script: the successes, then the errors, with silent reads in between. */
  function Script(es: seq<W.Event>, fs: seq<ErrorEntry>): seq<Turn> {
    if es != [] then [Turn(false, W.Entry(es[0]), NoEntry, false)] + Script(es[1..], fs)
    else if fs != [] then [Turn(false, W.Nothing, Failure(fs[0]), false)] + Script(es, fs[1..])
    else [Turn(false, W.Nothing, NoEntry, false)]
  }

  /** It is drained without a recorded error. */
  lemma {:induction false} ScriptServes(es: seq<W.Event>, fs: seq<ErrorEntry>)
    ensures Serves(Script(es, fs), es, fs) && FirstTrouble(Script(es, fs)) == None
    decreases |es| + |fs|
  {
    if es != [] {
      assert Script(es, fs)[1..] == Script(es[1..], fs);
      ScriptServes(es[1..], fs);
    } else if fs != [] {
      assert Script(es, fs)[1..] == Script(es, fs[1..]);
      ScriptServes(es, fs[1..]);
    }
  }

  // ---------------------------------------------------------------- pending errors

  /**
   A turn of a queue that works without fault, as libfabric's does.  A read of the success queue answers FI_EAVAIL while
   the next entry is an error; otherwise it gives an entry, nothing, or FI_EAGAIN, and an error may still arrive before
   the read of the error queue.
   */
  predicate Faultless(turn: Turn) {
    || turn.read.Entry?
    || (turn.read == W.Status(W.FI_EAVAIL) && turn.readErr.Failure?)
    || ((turn.read == W.Nothing || turn.read == W.Status(W.FI_EAGAIN))
        && (turn.readErr == NoEntry || turn.readErr == ErrStatus(W.FI_EAGAIN) || turn.readErr.Failure?))
  }

  /** Some read of the success queue announces a pending error. */
  predicate Announced(turns: seq<Turn>) {
    exists i :: 0 <= i < |turns| && turns[i].read == W.Status(W.FI_EAVAIL)
  }

  lemma AnnouncedOn(turns: seq<Turn>)
    requires turns != []
    ensures Announced(turns) <==> turns[0].read == W.Status(W.FI_EAVAIL) || Announced(turns[1..])
  {
    if i :| 0 <= i < |turns[1..]| && turns[1..][i].read == W.Status(W.FI_EAVAIL) {
      assert turns[i + 1] == turns[1..][i];
    }
    if i :| 0 < i < |turns| && turns[i].read == W.Status(W.FI_EAVAIL) {
      assert turns[1..][i - 1] == turns[i];
    }
  }

  /** The dispatcher takes the announcement of an error entry for an error of the queue. */
  lemma {:induction false} AnnouncementIsRecorded(turns: seq<Turn>, es: seq<W.Event>, fs: seq<ErrorEntry>)
    requires Serves(turns, es, fs) && forall i :: 0 <= i < |turns| ==> Faultless(turns[i])
    ensures FirstTrouble(turns) == if Announced(turns) then Some(W.Provider(W.FI_EAVAIL)) else None
    ensures Announced(turns) ==> fs != []
    decreases |turns|
  {
    if turns != [] {
      AnnouncedOn(turns);
      assert Faultless(turns[0]);
      if turns[0].read.Entry? {
        AnnouncementIsRecorded(turns[1..], es[1..], fs);
      } else if turns[0].readErr.Failure? {
        AnnouncementIsRecorded(turns[1..], es, fs[1..]);
      } else {
        AnnouncementIsRecorded(turns[1..], es, fs);
      }
    }
  }

  /**
   After any script a send or receive is refused for a dispatcher error exactly if the loop got to see a read error.
   */
  lemma RefusedExactlyAfterTrouble(w: World, turns: seq<Turn>, ops: set<OpId>, size: nat)
    requires size > 0
    ensures var recorded := Run(Progress(w, None, []), turns, ops).err;
            S.Refusing(false, size, recorded) == if FirstTrouble(turns).Some? then Some(S.DispatcherFailed) else None
  {
    FirstErrorStays(Progress(w, None, []), turns, ops);
  }

  /**
   So with a faultless queue the client goes on sending and receiving until a read of the success queue meets a pending
   error entry: a failed operation that is announced makes every later send and receive fail, and none else does.
   */
  lemma AnnouncementEndsPosting(w: World, turns: seq<Turn>, es: seq<W.Event>, fs: seq<ErrorEntry>, ops: set<OpId>,
                                size: nat)
    requires Serves(turns, es, fs) && (forall i :: 0 <= i < |turns| ==> Faultless(turns[i])) && size > 0
    ensures var recorded := Run(Progress(w, None, []), turns, ops).err;
            S.Refusing(false, size, recorded) == if Announced(turns) then Some(S.DispatcherFailed) else None
  {
    AnnouncementIsRecorded(turns, es, fs);
    RefusedExactlyAfterTrouble(w, turns, ops, size);
  }

  /**
   The same failed operation ends posting or does not, as the error comes before or after the first read of a turn.
   */
  lemma OneFailureMayEndPosting(w: World, f: ErrorEntry, ops: set<OpId>, size: nat)
    requires size > 0
    ensures var early, late := Turn(false, W.Status(W.FI_EAVAIL), Failure(f), false),
                               Turn(false, W.Status(W.FI_EAGAIN), Failure(f), false);
            && Faultless(early) && Serves([early], [], [f]) && Faultless(late) && Serves([late], [], [f])
            && S.Refusing(false, size, Run(Progress(w, None, []), [early], ops).err) == Some(S.DispatcherFailed)
            && S.Refusing(false, size, Run(Progress(w, None, []), [late], ops).err) == None
  {
    var early, late := Turn(false, W.Status(W.FI_EAVAIL), Failure(f), false),
                       Turn(false, W.Status(W.FI_EAGAIN), Failure(f), false);
    assert [early][0].read == W.Status(W.FI_EAVAIL);
    AnnouncementEndsPosting(w, [early], [], [f], ops, size);
    AnnouncementEndsPosting(w, [late], [], [f], ops, size);
  }
}
