/** The polling loop behind the Sync calls of fi, with the queue and the clock as a script. */
module Waiting {
  import opened Basics
  import opened Runtime

  type Errno = int

  const FI_EAGAIN: Errno := 11
  const FI_ETIMEDOUT: Errno := 110
  const FI_EAVAIL: Errno := 259

  datatype Error = NoCompletion | Timeout | InvalidHandle | Cancelled | Provider(errno: Errno)

  /** translateErr, with the sentinel of the completion queue. */
  function TranslateErr(e: Errno): Error {
    if e == FI_EAGAIN then NoCompletion else if e == FI_ETIMEDOUT then Timeout else Provider(e)
  }

  datatype Event = Event(p: Addr, tag: nat, data: nat, source: nat)

  /** What the provider answers to one read of the queue: a status, no entry, or the next entry. */
  datatype Answer = Status(errno: Errno) | Nothing | Entry(event: Event)

  /** One turn of the loop: whether the caller's context is done, the answer, and whether the deadline is past. */
  datatype Turn = Turn(done: bool, answer: Answer, late: bool)

  /** ReadContext. */
  function ReadResult(a: Answer): Result {
    match a
    case Status(e) => Bad(TranslateErr(e))
    case Nothing => Bad(NoCompletion)
    case Entry(event) => Good(event)
  }

  datatype Result = Good(event: Event) | Bad(error: Error)

  /** How a wait ends.  `Waiting`: the script is over and the loop is not. */
  datatype Outcome = Done(event: Event) | Failed(error: Error) | Waiting

  datatype Scanned = Scanned(outcome: Outcome, used: nat, world: World)

  /** The loop as a function: turn by turn until the target's entry, an error or a timeout. */
  function Scan(w: World, turns: seq<Turn>, target: Option<Addr>, timeout: int): (r: Scanned)
    ensures r.used <= |turns|
    decreases |turns|
  {
    if turns == [] then Scanned(Waiting, 0, w)
    else if turns[0].done then Scanned(Failed(Cancelled), 1, w)
    else
      match ReadResult(turns[0].answer)
      case Good(event) =>
        if event.p in w.ctxs && target == Some(event.p) then Scanned(Done(event), 1, Resolved(w, event.p))
        else More(Scan(Resolved(w, event.p), turns[1..], target, timeout))
      case Bad(error) =>
        if error != NoCompletion then Scanned(Failed(error), 1, w)
        else if timeout == 0 || (timeout > 0 && turns[0].late) then Scanned(Failed(Timeout), 1, w)
        else More(Scan(w, turns[1..], target, timeout))
  }

  function More(s: Scanned): Scanned {
    s.(used := s.used + 1)
  }

  class CompletionQueue {
    var open: bool
    var turns: seq<Turn>

    constructor (turns: seq<Turn>)
      ensures open && this.turns == turns
    {
      this.open, this.turns := true, turns;
    }
  }

  /** The pointer under which the target would be resolved: none if it is released already. */
  ghost function PointerOf(target: CompletionContext): Option<Addr>
    reads target
  {
    if target.closed then None else Some(target.ptr)
  }

  /** Resolves an entry, whoever it belongs to, and compares the context with the target. */
  method ResolveFor(g: Process, q: Addr, target: CompletionContext) returns (hit: bool)
    requires g.Valid() && g.Knows(target)
    modifies g, g.registry.Values
    ensures g.Valid() && g.Abs() == Resolved(old(g.Abs()), q)
    ensures g.registry.Values <= old(g.registry.Values)
    ensures hit <==> q in old(g.registry) && old(PointerOf(target)) == Some(q)
    ensures hit <==> q in old(g.Abs()).ctxs && old(PointerOf(target)) == Some(q)
    ensures !hit ==> g.Knows(target) && PointerOf(target) == old(PointerOf(target))
  {
    assert target.closed ==> target !in g.registry.Values;
    ghost var p, closed := target.ptr, target.closed;
    var ctx := g.ResolveCompletion(q);
    if !closed && q != p {
      assert p in g.registry && g.registry[p] == target;
    }
    hit := ctx == target;
  }

  method WaitForCompletion(g: Process, cq: CompletionQueue?, target: CompletionContext?, timeout: int, wantEvent: bool)
      returns (event: Option<Event>, outcome: Outcome)
    requires g.Valid() && (target != null ==> g.Knows(target))
    modifies g, g.registry.Values, cq
    ensures g.Valid()
    ensures target == null || cq == null || !old(cq.open) ==> g.Abs() == old(g.Abs()) && (cq != null ==> unchanged(cq))
    ensures target == null ==> outcome.Done? && event == None
    ensures target != null && (cq == null || !old(cq.open)) ==> outcome == Failed(InvalidHandle)
    ensures target != null && cq != null && old(cq.open) ==>
              var s := Scan(old(g.Abs()), old(cq.turns), old(PointerOf(target)), timeout);
              outcome == s.outcome && g.Abs() == s.world && cq.turns == old(cq.turns)[s.used..]
    ensures event == if target != null && wantEvent && outcome.Done? then Some(outcome.event) else None
  {
    if target == null {
      return None, Done(Event(NIL, 0, 0, 0));
    }
    if cq == null || !cq.open {
      return None, Failed(InvalidHandle);
    }
    ghost var p, turns, w := PointerOf(target), cq.turns, g.Abs();
    ghost var all := Scan(w, turns, p, timeout);
    ghost var used := 0;
    while |cq.turns| > 0
      invariant g.Valid() && g.Knows(target) && p == PointerOf(target) && cq.open
      invariant g.registry.Values <= old(g.registry.Values)
      invariant used <= |turns| && cq.turns == turns[used..] && g.Abs() == w
      invariant var s := Scan(w, turns[used..], p, timeout);
                all == s.(used := used + s.used)
      decreases |cq.turns|
    {
      var turn := cq.turns[0];
      cq.turns := cq.turns[1..];
      used := used + 1;
      if turn.done {
        return None, Failed(Cancelled);
      }
      var read := ReadResult(turn.answer);
      if read.Bad? {
        if read.error == NoCompletion {
          if timeout > 0 && turn.late {
            return None, Failed(Timeout);
          }
          if timeout == 0 {
            return None, Failed(Timeout);
          }
          continue;
        }
        return None, Failed(read.error);
      }
      var hit := ResolveFor(g, read.event.p, target);
      w := Resolved(w, read.event.p);
      if hit {
        return if wantEvent then Some(read.event) else None, Done(read.event);
      }
    }
    return None, Waiting;
  }

  // ---------------------------------------------------------------- a single reader of a finite queue

  /** The script of a queue that holds these entries and nothing after them. */
  function Script(es: seq<Event>): seq<Turn> {
    if es == [] then [Turn(false, Nothing, false)] else [Turn(false, Entry(es[0]), false)] + Script(es[1..])
  }

  /** The position of the first entry with this pointer, or the length of the queue. */
  function First(es: seq<Event>, p: Addr): (i: nat)
    ensures i <= |es|
    ensures i < |es| ==> es[i].p == p
    ensures forall j :: 0 <= j < i ==> es[j].p != p
  {
    if es == [] || es[0].p == p then 0 else 1 + First(es[1..], p)
  }

  /** The world after these entries have been resolved in order. */
  function ResolveAll(w: World, es: seq<Event>): World
    decreases |es|
  {
    if es == [] then w else ResolveAll(Resolved(w, es[0].p), es[1..])
  }

  /** The events of resolving: each known context once, at its first entry, in queue order. */
  function Traces(ctxs: map<Addr, Ctx>, es: seq<Event>): seq<Runtime.Event>
    decreases |es|
  {
    if es == [] then []
    else if es[0].p in ctxs then
      ReleaseTrace(ctxs[es[0].p], es[0].p, true) + Traces(ctxs - {es[0].p}, es[1..])
    else Traces(ctxs, es[1..])
  }

  function Pointers(es: seq<Event>): set<Addr> {
    set i | 0 <= i < |es| :: es[i].p
  }

  /**
   Resolving a queue runs the releases of exactly its known contexts, in order, and takes exactly them out of the
   registry.
   */
  lemma {:induction false} ResolveAllTraces(w: World, es: seq<Event>)
    ensures ResolveAll(w, es).log == w.log + Traces(w.ctxs, es)
    ensures ResolveAll(w, es).ctxs == w.ctxs - Pointers(es)
    decreases |es|
  {
    if es != [] {
      var v := Resolved(w, es[0].p);
      ResolveAllTraces(v, es[1..]);
      assert Pointers(es) == {es[0].p} + Pointers(es[1..]) by {
        assert forall i :: 0 < i < |es| ==> es[i] == es[1..][i - 1];
        assert forall i :: 0 <= i < |es[1..]| ==> es[1..][i] == es[i + 1];
      }
      assert v.ctxs == w.ctxs - {es[0].p};
    }
  }

  /**
   One reader, timeout 0, no cancellation and no read errors, target not resolved before: the wait ends.  It
   succeeds exactly if an entry of the queue carries the target's pointer, has consumed the queue up to and with
   the first such entry, or all of it, and resolved every entry it consumed.
   */
  lemma {:induction false} WaitFindsTarget(w: World, es: seq<Event>, p: Addr)
    requires p in w.ctxs
    ensures var s := Scan(w, Script(es), Some(p), 0);
            var i := First(es, p);
            if i < |es| then s == Scanned(Done(es[i]), i + 1, ResolveAll(w, es[..i + 1]))
            else s == Scanned(Failed(Timeout), |es| + 1, ResolveAll(w, es))
    decreases |es|
  {
    if es != [] {
      var v := Resolved(w, es[0].p);
      assert Script(es)[1..] == Script(es[1..]);
      if es[0].p == p {
        assert es[..1] == [es[0]];
        assert ResolveAll(v, []) == v;
      } else {
        WaitFindsTarget(v, es[1..], p);
        var i := First(es, p);
        if i < |es| { assert es[..i + 1][1..] == es[1..][..i]; }
      }
    }
  }

  /** A target that was released before the wait is not found, whatever the queue holds; all of it is consumed. */
  lemma {:induction false} ReleasedTargetTimesOut(w: World, es: seq<Event>)
    ensures Scan(w, Script(es), None, 0) == Scanned(Failed(Timeout), |es| + 1, ResolveAll(w, es))
    decreases |es|
  {
    if es != [] {
      assert Script(es)[1..] == Script(es[1..]);
      ReleasedTargetTimesOut(Resolved(w, es[0].p), es[1..]);
    }
  }

  /** The script of a queue in which an error entry follows these entries: its reads answer FI_EAVAIL from there on. */
  function Blocked(es: seq<Event>, rest: seq<Turn>): seq<Turn> {
    if es == [] then [Turn(false, Status(FI_EAVAIL), false)] + rest
    else [Turn(false, Entry(es[0]), false)] + Blocked(es[1..], rest)
  }

  /**
   A wait never reads the error queue.  With an error entry pending behind these entries, it succeeds exactly if one of
   them carries the target's pointer; otherwise it fails with FI_EAVAIL, whatever the timeout and whoever the error
   belongs to, and leaves its target registered.
   */
  lemma {:induction false} PendingErrorFailsWait(w: World, es: seq<Event>, p: Addr, timeout: int, rest: seq<Turn>)
    requires p in w.ctxs
    ensures var s := Scan(w, Blocked(es, rest), Some(p), timeout);
            var i := First(es, p);
            if i < |es| then s == Scanned(Done(es[i]), i + 1, ResolveAll(w, es[..i + 1]))
            else s == Scanned(Failed(Provider(FI_EAVAIL)), |es| + 1, ResolveAll(w, es)) && p in s.world.ctxs
    decreases |es|
  {
    if es != [] {
      var v := Resolved(w, es[0].p);
      assert Blocked(es, rest)[1..] == Blocked(es[1..], rest);
      if es[0].p == p {
        assert es[..1] == [es[0]];
        assert ResolveAll(v, []) == v;
      } else {
        PendingErrorFailsWait(v, es[1..], p, timeout, rest);
        var i := First(es, p);
        if i < |es| { assert es[..i + 1][1..] == es[1..][..i]; }
      }
    }
  }

  // ---------------------------------------------------------------- every script

  /** The queue has nothing yet. */
  predicate Idle(a: Answer) {
    a == Nothing || a == Status(FI_EAGAIN)
  }

  /**
   The turn ends a wait for a context registered under `target`: the caller gave up, the entry is the target's, the
   queue has nothing and the wait is not to go on, or the read failed.
   */
  predicate Ends(t: Turn, target: Option<Addr>, timeout: int) {
    || t.done
    || (t.answer.Entry? && target == Some(t.answer.event.p))
    || (Idle(t.answer) && (timeout == 0 || (timeout > 0 && t.late)))
    || (t.answer.Status? && t.answer.errno != FI_EAGAIN)
  }

  /** How a wait ends at such a turn. */
  function EndAt(t: Turn): Outcome {
    if t.done then Failed(Cancelled)
    else
      match t.answer
      case Entry(event) => Done(event)
      case Nothing => Failed(Timeout)
      case Status(e) => Failed(if e == FI_EAGAIN || e == FI_ETIMEDOUT then Timeout else Provider(e))
  }

  /** The first turn that ends the wait, or the length of the script. */
  function FirstEnd(turns: seq<Turn>, target: Option<Addr>, timeout: int): (i: nat)
    ensures i <= |turns|
    ensures i < |turns| ==> Ends(turns[i], target, timeout)
    ensures forall j :: 0 <= j < i ==> !Ends(turns[j], target, timeout)
  {
    if turns == [] || Ends(turns[0], target, timeout) then 0 else 1 + FirstEnd(turns[1..], target, timeout)
  }

  /** The entries that these turns read. */
  function Entries(turns: seq<Turn>): seq<Event> {
    if turns == [] then []
    else if turns[0].answer.Entry? && !turns[0].done then [turns[0].answer.event] + Entries(turns[1..])
    else Entries(turns[1..])
  }

  /** The pointer of the target if it is still registered. */
  function Wanted(w: World, target: Option<Addr>): Option<Addr> {
    if target.Some? && target.value in w.ctxs then target else None
  }

  /** The world after a turn that does not end the wait. */
  function Passed(w: World, t: Turn): World {
    if t.answer.Entry? then Resolved(w, t.answer.event.p) else w
  }

  lemma PassingOn(w: World, turns: seq<Turn>, target: Option<Addr>, timeout: int)
    requires turns != [] && !Ends(turns[0], Wanted(w, target), timeout)
    ensures Scan(w, turns, target, timeout) == More(Scan(Passed(w, turns[0]), turns[1..], target, timeout))
    ensures Wanted(Passed(w, turns[0]), target) == Wanted(w, target)
  {
  }

  lemma EndingNow(w: World, turns: seq<Turn>, target: Option<Addr>, timeout: int)
    requires turns != [] && Ends(turns[0], Wanted(w, target), timeout)
    ensures Scan(w, turns, target, timeout)
            == Scanned(EndAt(turns[0]), 1, ResolveAll(w, Entries(turns[..1])))
  {
    var t := turns[0];
    assert turns[..1] == [t];
    if t.answer.Entry? && !t.done {
      assert Entries([t]) == [t.answer.event];
      assert ResolveAll(w, [t.answer.event]) == Resolved(w, t.answer.event.p);
    } else {
      assert Entries([t]) == [];
    }
  }

  lemma EntriesOn(w: World, turns: seq<Turn>, n: nat)
    requires turns != [] && !turns[0].done && n < |turns|
    ensures ResolveAll(w, Entries(turns[..n + 1])) == ResolveAll(Passed(w, turns[0]), Entries(turns[1..][..n]))
  {
    assert turns[..n + 1][1..] == turns[1..][..n];
    var rest := Entries(turns[1..][..n]);
    if turns[0].answer.Entry? { assert ([turns[0].answer.event] + rest)[1..] == rest; }
  }

  /**
   For every script and every timeout: a wait goes on over entries of others and over idle reads until the first turn
   that ends it, ends as that turn says, and has then resolved every entry it read, its own and those of others.
   */
  lemma {:induction false} WaitEndsExactly(w: World, turns: seq<Turn>, target: Option<Addr>, timeout: int)
    ensures var i := FirstEnd(turns, Wanted(w, target), timeout);
            var n := if i < |turns| then i + 1 else i;
            Scan(w, turns, target, timeout)
            == Scanned(if i < |turns| then EndAt(turns[i]) else Waiting, n, ResolveAll(w, Entries(turns[..n])))
    decreases |turns|
  {
    if turns != [] {
      var t, p := turns[0], Wanted(w, target);
      if Ends(t, p, timeout) {
        EndingNow(w, turns, target, timeout);
      } else {
        PassingOn(w, turns, target, timeout);
        WaitEndsExactly(Passed(w, t), turns[1..], target, timeout);
        var i := FirstEnd(turns[1..], p, timeout);
        EntriesOn(w, turns, if i < |turns| - 1 then i + 1 else i);
      }
    }
  }

  /**
   A wait that is not cancelled, on a queue that works, with a timeout other than 0: however often the queue is idle in
   between, it ends with success at the first entry of the target, unless the deadline passes before; with a negative
   timeout it has none.
   */
  lemma PatientWait(w: World, turns: seq<Turn>, p: Addr, timeout: int, i: nat)
    requires p in w.ctxs && timeout != 0 && i <= |turns|
    requires forall j :: 0 <= j < |turns| ==> !turns[j].done && (turns[j].answer.Entry? || Idle(turns[j].answer))
    requires forall j :: 0 <= j < i && turns[j].answer.Entry? ==> turns[j].answer.event.p != p
    requires timeout > 0 ==> forall j :: 0 <= j < i && Idle(turns[j].answer) ==> !turns[j].late
    ensures var s := Scan(w, turns, Some(p), timeout);
            && (i < |turns| && turns[i].answer.Entry? && turns[i].answer.event.p == p ==>
                  s == Scanned(Done(turns[i].answer.event), i + 1, ResolveAll(w, Entries(turns[..i + 1]))))
            && (i < |turns| && Idle(turns[i].answer) && timeout > 0 && turns[i].late ==>
                  s == Scanned(Failed(Timeout), i + 1, ResolveAll(w, Entries(turns[..i + 1]))))
            && (i == |turns| ==> s == Scanned(Waiting, i, ResolveAll(w, Entries(turns))))
  {
    WaitEndsExactly(w, turns, Some(p), timeout);
    var d := FirstEnd(turns, Some(p), timeout);
    assert turns[..|turns|] == turns;
    assert d >= i;
  }

  /**
   Over any script: a wait reports a timeout only for a timeout of 0 or a deadline that is past, or because the
   provider did; with a negative timeout it goes on until an entry, an error or cancellation ends it.
   */
  lemma TimeoutHasAReason(w: World, turns: seq<Turn>, target: Option<Addr>, timeout: int)
    requires Scan(w, turns, target, timeout).outcome == Failed(Timeout)
    ensures exists i :: 0 <= i < |turns| &&
              (turns[i].answer == Status(FI_ETIMEDOUT)
               || ((turns[i].answer == Nothing || turns[i].answer == Status(FI_EAGAIN))
                   && (timeout == 0 || (timeout > 0 && turns[i].late))))
  {
    WaitEndsExactly(w, turns, target, timeout);
    assert Ends(turns[FirstEnd(turns, Wanted(w, target), timeout)], Wanted(w, target), timeout);
  }

  /** A wait that succeeds does so at an entry of the target, which was still registered. */
  lemma {:induction false} DoneIsTheTarget(w: World, turns: seq<Turn>, target: Option<Addr>, timeout: int)
    requires Scan(w, turns, target, timeout).outcome.Done?
    ensures var s := Scan(w, turns, target, timeout);
            && target == Some(s.outcome.event.p) && s.outcome.event.p in w.ctxs && s.outcome.event.p !in s.world.ctxs
            && s.used > 0 && turns[s.used - 1].answer == Entry(s.outcome.event)
    decreases |turns|
  {
    var a := turns[0].answer;
    if ReadResult(a).Good? && !(a.event.p in w.ctxs && target == Some(a.event.p)) {
      DoneIsTheTarget(Resolved(w, a.event.p), turns[1..], target, timeout);
    } else if ReadResult(a).Bad? {
      DoneIsTheTarget(w, turns[1..], target, timeout);
    }
  }
}
