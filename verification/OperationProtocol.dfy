/**
 One client operation as a protocol: any number of `complete` calls racing with any
 number of `addCallback` calls and waiters.

 One label is one atomic step of client/client.go: entering `once.Do`, a mutex region,
 the emit and release calls, the close of `done`, or one `go` statement.
 */
module OperationProtocol {
  import opened Basics

  datatype Result = Result(length: nat, failed: bool)

  /** One addCallback call; two calls with the same function have different tickets. */
  type Ticket = nat

  /** Where the completer that won `once.Do` is. */
  datatype Point = Idle | Entered | Stored | Emitted | Released | Signalled | Finished

  datatype State = State(
    point: Point,
    won: Result,                      // the winner's argument, once it is past Idle
    result: Option<Result>,           // op.result, Some once op.completed is set
    callbacks: seq<Ticket>,           // op.callbacks
    snapshot: seq<Ticket>,            // what the winner still has to start
    late: map<Ticket, Result>,        // addCallback found op.completed and is about to start its callback
    started: seq<Ticket>,             // callbacks started, in order
    given: seq<Result>,               // and what each was given
    emits: nat,
    releases: nat,
    done: bool,
    next: Ticket,                     // tickets handed out so far
    offered: seq<Result>)             // history: arguments of `complete` in the order in which they entered

  datatype Label =
    | Complete(res: Result)
    | Store
    | Emit
    | Release
    | Signal
    | StartNext
    | Finish
    | AddCallback
    | StartLate(t: Ticket)

  function Init(): State {
    State(Idle, Result(0, false), None, [], [], map[], [], [], 0, 0, false, 0, [])
  }

  predicate Enabled(s: State, l: Label) {
    match l
    case Complete(_) => true
    case Store => s.point == Entered
    case Emit => s.point == Stored
    case Release => s.point == Emitted
    case Signal => s.point == Released
    case StartNext => s.point == Signalled && s.snapshot != []
    case Finish => s.point == Signalled && s.snapshot == []
    case AddCallback => true
    case StartLate(t) => t in s.late
  }

  /** The first call runs the body; every later one only waits for it inside `once.Do`. */
  function DoComplete(s: State, res: Result): State {
    var t := s.(offered := s.offered + [res]);
    if s.point == Idle then t.(point := Entered, won := res) else t
  }

  function DoAdd(s: State): State {
    var t := s.(next := s.next + 1);
    if s.result.Some? then t.(late := s.late[s.next := s.result.value])
    else t.(callbacks := s.callbacks + [s.next])
  }

  function Step(s: State, l: Label): State
    requires Enabled(s, l)
  {
    match l
    case Complete(res) => DoComplete(s, res)
    case Store => s.(point := Stored, result := Some(s.won), snapshot := s.callbacks, callbacks := [])
    case Emit => s.(point := Emitted, emits := s.emits + 1)
    case Release => s.(point := Released, releases := s.releases + 1)
    case Signal => s.(point := Signalled, done := true)
    case StartNext =>
      s.(snapshot := s.snapshot[1..], started := s.started + [s.snapshot[0]], given := s.given + [s.won])
    case Finish => s.(point := Finished)
    case AddCallback => DoAdd(s)
    case StartLate(t) =>
      s.(late := s.late - {t}, started := s.started + [t], given := s.given + [s.late[t]])
  }

  // ---------------------------------------------------------------- invariant

  function Progress(p: Point): nat {
    match p
    case Idle => 0
    case Entered => 1
    case Stored => 2
    case Emitted => 3
    case Released => 4
    case Signalled => 5
    case Finished => 6
  }

  /** How many times the callback of a ticket is in some place: registered, about to be started, or started. */
  function Copies(s: State, t: Ticket): nat {
    multiset(s.callbacks)[t] + multiset(s.snapshot)[t] + (if t in s.late then 1 else 0) + multiset(s.started)[t]
  }

  ghost predicate Order(s: State) {
    && (s.point == Idle <==> s.offered == [])
    && (s.point != Idle ==> s.won == s.offered[0])
    && s.result == (if Progress(s.point) >= 2 then Some(s.won) else None)
    && (Progress(s.point) < 2 ==> s.snapshot == [] && s.late == map[] && s.started == [])
    && (Progress(s.point) >= 2 ==> s.callbacks == [])
    && (s.point == Finished ==> s.snapshot == [])
    && s.emits == (if Progress(s.point) >= 3 then 1 else 0)
    && s.releases == (if Progress(s.point) >= 4 then 1 else 0)
    && s.done == (Progress(s.point) >= 5)
  }

  ghost predicate Given(s: State) {
    && |s.started| == |s.given|
    && (forall i :: 0 <= i < |s.given| ==> s.given[i] == s.won)
    && (forall t :: t in s.late ==> s.late[t] == s.won)
  }

  ghost predicate Counted(s: State) {
    forall t: Ticket {:trigger Copies(s, t)} :: Copies(s, t) == if t < s.next then 1 else 0
  }

  ghost predicate Inv(s: State) {
    Order(s) && Given(s) && Counted(s)
  }

  lemma StepKeepsOrder(s: State, l: Label)
    requires Order(s) && Enabled(s, l)
    ensures Order(Step(s, l))
  {
  }

  lemma StepKeepsGiven(s: State, l: Label)
    requires Order(s) && Given(s) && Enabled(s, l)
    ensures Given(Step(s, l))
  {
  }

  /** The callbacks move from one place to another; only addCallback adds one, under a fresh ticket. */
  lemma StepMovesCopies(s: State, l: Label, t: Ticket)
    requires Order(s) && Enabled(s, l) && l != AddCallback
    ensures Copies(Step(s, l), t) == Copies(s, t)
  {
    match l
    case StartNext => assert s.snapshot == [s.snapshot[0]] + s.snapshot[1..];
    case _ =>
  }

  lemma AddMakesOneCopy(s: State, t: Ticket)
    requires Order(s) && Copies(s, s.next) == 0
    ensures Copies(DoAdd(s), t) == Copies(s, t) + (if t == s.next then 1 else 0)
  {
  }

  lemma StepKeepsCounted(s: State, l: Label)
    requires Order(s) && Counted(s) && Enabled(s, l)
    ensures Counted(Step(s, l))
  {
    assert Copies(s, s.next) == 0;
    forall t: Ticket ensures Copies(Step(s, l), t) == if t < Step(s, l).next then 1 else 0 {
      assert Copies(s, t) == if t < s.next then 1 else 0;
      if l == AddCallback { AddMakesOneCopy(s, t); } else { StepMovesCopies(s, l, t); }
    }
  }

  lemma StepKeepsInv(s: State, l: Label)
    requires Inv(s) && Enabled(s, l)
    ensures Inv(Step(s, l))
  {
    StepKeepsOrder(s, l);
    StepKeepsGiven(s, l);
    StepKeepsCounted(s, l);
  }

  lemma InitHolds()
    ensures Inv(Init())
  {
  }

  // ---------------------------------------------------------------- every run

  type Schedule = seq<Label>

  predicate Runnable(s: State, ls: Schedule)
    decreases ls
  {
    ls == [] || (Enabled(s, ls[0]) && Runnable(Step(s, ls[0]), ls[1..]))
  }

  function Exec(s: State, ls: Schedule): State
    requires Runnable(s, ls)
    decreases ls
  {
    if ls == [] then s else Exec(Step(s, ls[0]), ls[1..])
  }

  lemma {:induction false} ExecKeepsInv(s: State, ls: Schedule)
    requires Inv(s) && Runnable(s, ls)
    ensures Inv(Exec(s, ls))
    decreases ls
  {
    if ls != [] {
      StepKeepsInv(s, ls[0]);
      ExecKeepsInv(Step(s, ls[0]), ls[1..]);
    }
  }

  /**
   A waiter on `done` sees the first result ever offered, after the counters and handlers and after the region release.
   */
  lemma DoneMeansAllDone(ls: Schedule)
    requires Runnable(Init(), ls)
    ensures var s := Exec(Init(), ls);
            && (s.done ==> s.offered != [] && s.result == Some(s.offered[0]) && s.emits == 1 && s.releases == 1)
            && s.emits <= 1 && s.releases <= 1
  {
    InitHolds();
    ExecKeepsInv(Init(), ls);
  }

  /** What a step adds to the history stays; in particular the first offered result is the first for ever. */
  lemma {:induction false} HistoryGrows(s: State, ls: Schedule)
    requires Runnable(s, ls)
    ensures s.offered <= Exec(s, ls).offered
    ensures s.started <= Exec(s, ls).started && s.given <= Exec(s, ls).given
    decreases ls
  {
    if ls != [] {
      HistoryGrows(Step(s, ls[0]), ls[1..]);
    }
  }

  /** The result, once stored, is the first one offered, and no later `complete` changes it. */
  lemma FirstResultWins(ls: Schedule, more: Schedule)
    requires Runnable(Init(), ls) && Runnable(Exec(Init(), ls), more)
    requires Exec(Init(), ls).result.Some?
    ensures Exec(Init(), ls).offered != []
    ensures Exec(Exec(Init(), ls), more).result == Exec(Init(), ls).result == Some(Exec(Init(), ls).offered[0])
  {
    InitHolds();
    ExecKeepsInv(Init(), ls);
    var s := Exec(Init(), ls);
    ExecKeepsInv(s, more);
    HistoryGrows(s, more);
    ResultStays(s, more);
  }

  lemma {:induction false} ResultStays(s: State, ls: Schedule)
    requires Inv(s) && Runnable(s, ls) && s.result.Some?
    ensures Exec(s, ls).result == s.result
    decreases ls
  {
    if ls != [] {
      StepKeepsInv(s, ls[0]);
      ResultStays(Step(s, ls[0]), ls[1..]);
    }
  }

  /**
   No callback is ever started twice or with another result; and when the winning completer has
   finished and no addCallback is half-way, every registered callback has been started.
   */
  lemma CallbacksExactlyOnce(ls: Schedule, t: Ticket)
    requires Runnable(Init(), ls)
    ensures var s := Exec(Init(), ls);
            && multiset(s.started)[t] <= 1
            && |s.given| == |s.started|
            && (s.offered == [] ==> s.started == [])
            && (s.offered != [] ==> forall i :: 0 <= i < |s.given| ==> s.given[i] == s.offered[0])
            && (s.point == Finished && s.late == map[] ==>
                  multiset(s.started)[t] == if t < s.next then 1 else 0)
  {
    InitHolds();
    ExecKeepsInv(Init(), ls);
    var s := Exec(Init(), ls);
    assert Copies(s, t) == if t < s.next then 1 else 0;
  }

  /** A completed operation gets to its end by its own steps: at most one per remaining callback and stage. */
  function Remaining(s: State): nat {
    (if s.point == Idle then 0 else 6 - Progress(s.point)) + |s.callbacks| + |s.snapshot| + |s.late|
  }

  /** Once a result was offered some step of the completer is possible until it has finished, and it makes progress. */
  lemma CompletionProgress(s: State)
    requires Inv(s) && s.point != Idle && s.point != Finished
    ensures exists l :: Enabled(s, l) && !l.Complete? && l != AddCallback && Remaining(Step(s, l)) < Remaining(s)
  {
    var l := match s.point
             case Entered => Store
             case Stored => Emit
             case Emitted => Release
             case Released => Signal
             case _ => if s.snapshot != [] then StartNext else Finish;
    assert Enabled(s, l) && Remaining(Step(s, l)) < Remaining(s);
  }

  /** A step of the completer that won, or the start of a callback that came late. */
  predicate Settling(l: Label) {
    !l.Complete? && l != AddCallback
  }

  lemma SettlingStep(s: State) returns (l: Label)
    requires Inv(s) && s.point != Idle && !(s.point == Finished && s.late == map[])
    ensures Enabled(s, l) && Settling(l) && Remaining(Step(s, l)) < Remaining(s)
    ensures Step(s, l).point != Idle && Step(s, l).next == s.next
  {
    if s.point != Finished {
      CompletionProgress(s);
      l :| Enabled(s, l) && !l.Complete? && l != AddCallback && Remaining(Step(s, l)) < Remaining(s);
    } else {
      var t :| t in s.late;
      l := StartLate(t);
      assert s.late.Keys - {t} == Step(s, l).late.Keys && |s.late.Keys - {t}| < |s.late.Keys|;
    }
  }

  lemma {:induction false} Settles(s: State) returns (ls: Schedule)
    requires Inv(s) && s.point != Idle
    ensures Runnable(s, ls) && forall i :: 0 <= i < |ls| ==> Settling(ls[i])
    ensures Exec(s, ls).point == Finished && Exec(s, ls).late == map[] && Exec(s, ls).next == s.next
    decreases Remaining(s)
  {
    if s.point == Finished && s.late == map[] {
      return [];
    }
    var l := SettlingStep(s);
    StepKeepsInv(s, l);
    var rest := Settles(Step(s, l));
    ls := [l] + rest;
    assert ls[1..] == rest;
  }

  /**
   From every reachable state in which a result was offered, the steps of the completer and of the late addCallback
   calls alone close `done`, with counters, handlers and release done, and start every callback registered so far
   exactly once.
   */
  lemma EveryCallbackStarts(ls: Schedule, t: Ticket) returns (more: Schedule)
    requires Runnable(Init(), ls) && Exec(Init(), ls).offered != [] && t < Exec(Init(), ls).next
    ensures Runnable(Init(), ls + more) && forall i :: 0 <= i < |more| ==> Settling(more[i])
    ensures var s := Exec(Init(), ls + more);
            && s.done && s.offered != [] && s.result == Some(s.offered[0]) && s.emits == 1 && s.releases == 1
            && multiset(s.started)[t] == 1
  {
    InitHolds();
    ExecKeepsInv(Init(), ls);
    more := Settles(Exec(Init(), ls));
    Concat(Init(), ls, more);
    DoneMeansAllDone(ls + more);
    CallbacksExactlyOnce(ls + more, t);
    ExecKeepsInv(Init(), ls + more);
  }

  lemma {:induction false} Concat(s: State, ls: Schedule, more: Schedule)
    requires Runnable(s, ls) && Runnable(Exec(s, ls), more)
    ensures Runnable(s, ls + more) && Exec(s, ls + more) == Exec(Exec(s, ls), more)
    decreases ls
  {
    if ls == [] {
      assert [] + more == more;
    } else {
      Concat(Step(s, ls[0]), ls[1..], more);
      assert (ls + more)[1..] == ls[1..] + more;
    }
  }

  /**
   Whatever has happened before, a callback added now and a result offered now are answered: some run of the completer
   and of late callers closes `done` with the first result ever offered, and starts that callback exactly once.
   */
  lemma OffersAreAnswered(ls: Schedule, res: Result) returns (more: Schedule)
    requires Runnable(Init(), ls)
    ensures Runnable(Init(), ls + [AddCallback, Complete(res)] + more)
    ensures var s, t := Exec(Init(), ls), Exec(Init(), ls + [AddCallback, Complete(res)] + more);
            && t.done && t.result == Some(if s.offered == [] then res else s.offered[0])
            && multiset(t.started)[s.next] == 1
  {
    var s := Exec(Init(), ls);
    var calls := [AddCallback, Complete(res)];
    var s1 := Step(s, AddCallback);
    assert calls[1..] == [Complete(res)] && calls[1..][1..] == [] && Enabled(s1, Complete(res));
    assert Runnable(Step(s1, Complete(res)), []) && Exec(Step(s1, Complete(res)), []) == Step(s1, Complete(res));
    var s2 := Step(s1, Complete(res));
    assert Runnable(s1, calls[1..]) && Exec(s1, calls[1..]) == s2;
    assert Runnable(s, calls) && Exec(s, calls) == s2;
    Concat(Init(), ls, calls);
    more := EveryCallbackStarts(ls + calls, s.next);
    HistoryGrowsFrom(ls + calls, more);
  }

  lemma HistoryGrowsFrom(ls: Schedule, more: Schedule)
    requires Runnable(Init(), ls + more) && Runnable(Init(), ls)
    ensures Runnable(Exec(Init(), ls), more) && Exec(Init(), ls).offered <= Exec(Init(), ls + more).offered
  {
    Split(Init(), ls, more);
    HistoryGrows(Exec(Init(), ls), more);
  }

  lemma {:induction false} Split(s: State, ls: Schedule, more: Schedule)
    requires Runnable(s, ls + more) && Runnable(s, ls)
    ensures Runnable(Exec(s, ls), more) && Exec(s, ls + more) == Exec(Exec(s, ls), more)
    decreases ls
  {
    if ls == [] {
      assert [] + more == more;
    } else {
      assert (ls + more)[1..] == ls[1..] + more;
      Split(Step(s, ls[0]), ls[1..], more);
    }
  }
}
