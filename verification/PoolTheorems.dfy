/** What holds in every run of the memory-region pool. */
module PoolTheorems {
  import opened Basics
  import opened PoolProtocol

  type Schedule = seq<Label>

  ghost predicate Runnable(s: State, ls: Schedule)
    decreases ls
  {
    ls == [] || (Enabled(s, ls[0]) && Runnable(Step(s, ls[0]), ls[1..]))
  }

  ghost function Exec(s: State, ls: Schedule): State
    requires Runnable(s, ls)
    decreases ls
  {
    if ls == [] then s else Exec(Step(s, ls[0]), ls[1..])
  }

  lemma {:induction false} ExecKeepsInv(s: State, ls: Schedule)
    requires Inv(s) && Runnable(s, ls)
    ensures Inv(Exec(s, ls))
    decreases ls
  {
    if ls != [] {
      StepKeepsInv(s, ls[0]);
      ExecKeepsInv(Step(s, ls[0]), ls[1..]);
    }
  }

  // ---------------------------------------------------------------- exclusive ownership

  /**
   In every run a region is in at most one place: at one position of the channel, in the hands
   of one caller, or with the closer; and wherever it is, it is still open.
   */
  lemma RegionIsInOnePlace(capacity: nat, size: nat, ls: Schedule, r: RegionId)
    requires Runnable(Init(capacity, size), ls)
    ensures var s := Exec(Init(capacity, size), ls);
            && |s.chan| <= capacity
            && (forall i, j :: 0 <= i < |s.chan| && 0 <= j < |s.chan| && s.chan[i] == r && s.chan[j] == r ==> i == j)
            && (forall a, b :: Has(s, a, r) && Has(s, b, r) ==> a == b)
            && (r in s.chan ==> (forall a :: !Has(s, a, r)) && s.drain != Holding(r))
            && (s.drain == Holding(r) ==> forall a :: !Has(s, a, r))
            && (r in s.chan || s.drain == Holding(r) || (exists a :: Has(s, a, r)) ==>
                  r in s.regions && s.regions[r].open)
            && (r in s.chan ==> |s.regions[r].bytes| == s.size)
  {
    ExecKeepsInv(Init(capacity, size), ls);
    var s := Exec(Init(capacity, size), ls);
    ConstantsStay(Init(capacity, size), ls);
    PooledRegions(s);
    forall i, j | 0 <= i < |s.chan| && 0 <= j < |s.chan| && s.chan[i] == r && s.chan[j] == r ensures i == j {
      assert PooledOk(s, i);
    }
    forall a | Has(s, a, r)
      ensures r !in s.chan && s.drain != Holding(r) && r in s.regions && s.regions[r].open
      ensures forall b :: Has(s, b, r) ==> a == b
    {
      assert HandOk(s, a);
    }
  }

  lemma {:induction false} ConstantsStay(s: State, ls: Schedule)
    requires Runnable(s, ls)
    ensures Exec(s, ls).capacity == s.capacity && Exec(s, ls).size == s.size
    decreases ls
  {
    if ls != [] {
      StepKeepsConstants(s, ls[0]);
      ConstantsStay(Step(s, ls[0]), ls[1..]);
    }
  }

  lemma StepKeepsConstants(s: State, l: Label)
    requires Enabled(s, l)
    ensures Step(s, l).capacity == s.capacity && Step(s, l).size == s.size
  {
  }

  /** Steps that can change the contents or the openness of the region in `a`'s hands. */
  predicate Touches(l: Label, a: Caller) {
    match l
    case Write(b, _) => b == a
    case CloseRegion(b, _) => b == a
    case _ => false
  }

  /** Nobody else changes, closes or takes away the region that a caller owns. */
  lemma OthersDoNotTouch(s: State, l: Label, a: Caller, r: RegionId)
    requires Inv(s) && Enabled(s, l) && Has(s, a, r) && !Touches(l, a)
    ensures r in s.regions && r in Step(s, l).regions && Step(s, l).regions[r] == s.regions[r]
    ensures Has(Step(s, l), a, r) || l == Push(a)
  {
    assert HandOk(s, a);
    match l {
      case Write(b, data) => assert HandOk(s, b);
      case CloseRegion(b, ok) => assert HandOk(s, b);
      case _ =>
    }
  }

  ghost predicate Undisturbed(ls: Schedule, a: Caller) {
    forall l | l in ls :: !Touches(l, a) && l != Push(a)
  }

  /**
   Over any stretch of a run in which the owner neither writes nor gives the region back, its
   bytes stay what they were, whatever all other callers and `Close` do.
   */
  lemma {:induction false} OwnedBytesAreStable(s: State, ls: Schedule, a: Caller, r: RegionId)
    requires Inv(s) && Runnable(s, ls) && Has(s, a, r) && Undisturbed(ls, a)
    ensures r in s.regions && r in Exec(s, ls).regions && Exec(s, ls).regions[r] == s.regions[r]
    ensures Has(Exec(s, ls), a, r)
    decreases ls
  {
    assert HandOk(s, a);
    if ls != [] {
      assert ls[0] in ls && Undisturbed(ls[1..], a);
      OthersDoNotTouch(s, ls[0], a, r);
      StepKeepsInv(s, ls[0]);
      OwnedBytesAreStable(Step(s, ls[0]), ls[1..], a, r);
    }
  }

  // ---------------------------------------------------------------- drain and after

  /** Callers whose Release is past its checks and has not pushed yet. */
  ghost function Pushers(s: State): set<Caller> {
    set a | a in s.callers && s.callers[a].Pushing?
  }

  /** What the drain loop may still have to take out. */
  ghost function Pending(s: State): nat {
    |s.chan| + |Pushers(s)|
  }

  lemma SubsetCardinality<T>(a: set<T>, b: set<T>)
    requires a <= b
    ensures |a| <= |b|
    ensures a < b ==> |a| < |b|
  {
    assert b == a + (b - a);
  }

  /** After the swap of `closed` no step adds to what the drain has to take out, and each take removes one. */
  lemma ClosedStepPays(s: State, l: Label)
    requires s.closed && Enabled(s, l)
    ensures Step(s, l).closed
    ensures Pending(Step(s, l)) + (if l == DrainTake then 1 else 0) <= Pending(s)
  {
    var t := Step(s, l);
    assert Pushers(t) <= Pushers(s);
    SubsetCardinality(Pushers(t), Pushers(s));
    if l.Push? {
      assert l.a in Pushers(s) && l.a !in Pushers(t);
    }
  }

  function Takes(ls: Schedule): nat {
    if ls == [] then 0 else (if ls[0] == DrainTake then 1 else 0) + Takes(ls[1..])
  }

  /** The drain loop of `Close` goes round at most once per region pooled or being pushed when it starts. */
  lemma {:induction false} DrainIsBounded(s: State, ls: Schedule)
    requires s.closed && Runnable(s, ls)
    ensures Takes(ls) + Pending(Exec(s, ls)) <= Pending(s)
    decreases ls
  {
    if ls != [] {
      ClosedStepPays(s, ls[0]);
      DrainIsBounded(Step(s, ls[0]), ls[1..]);
    }
  }

  /** The closer is never stuck: until `Close` returns one of its steps is possible. */
  lemma DrainProgress(s: State)
    requires Inv(s) && s.closed && s.drain != Over
    ensures Enabled(s, DrainTake) || Enabled(s, DrainClose(true)) || Enabled(s, DrainEnd)
  {
  }

  lemma SpanningIsFixed(s: State, l: Label)
    requires s.closed && Enabled(s, l)
    ensures Step(s, l).spanning == s.spanning
    ensures s.drain == Over ==> Step(s, l).drain == Over
  {
  }

  /**
   After `Close` has returned, whatever is in the channel was pushed by a Release that had passed
   its checks before `closed` was swapped; with no such Release the pool stays empty for ever.
   */
  lemma {:induction false} PooledAfterClose(s: State, ls: Schedule)
    requires Inv(s) && s.drain == Over && Runnable(s, ls)
    ensures Exec(s, ls).drain == Over
    ensures forall r | r in Exec(s, ls).chan :: r in s.spanning
    ensures s.spanning == {} ==> Exec(s, ls).chan == []
    decreases ls
  {
    if ls == [] {
      forall r | r in s.chan ensures r in s.spanning {
        var i :| 0 <= i < |s.chan| && s.chan[i] == r;
        assert PooledOk(s, i);
      }
      if s.chan != [] { assert s.chan[0] in s.chan; }
    } else {
      StepKeepsInv(s, ls[0]);
      SpanningIsFixed(s, ls[0]);
      PooledAfterClose(Step(s, ls[0]), ls[1..]);
    }
  }

  lemma ClosedCannotPush(s: State, l: Label)
    requires s.drain == Over && s.closed && s.chan == [] && Enabled(s, l)
    requires Pushers(s) == {} || s.capacity == 0
    ensures Step(s, l).drain == Over && Step(s, l).closed && Step(s, l).chan == []
    ensures Step(s, l).capacity == s.capacity && (Pushers(s) == {} ==> Pushers(Step(s, l)) == {})
  {
    if l.Push? { assert l.a in Pushers(s); }
    forall a | a in Pushers(Step(s, l)) ensures a in Pushers(s) { }
  }

  lemma {:induction false} StaysEmpty(s: State, ls: Schedule)
    requires s.drain == Over && s.closed && s.chan == [] && Runnable(s, ls)
    requires Pushers(s) == {} || s.capacity == 0
    ensures Exec(s, ls).chan == []
    decreases ls
  {
    if ls != [] {
      ClosedCannotPush(s, ls[0]);
      StaysEmpty(Step(s, ls[0]), ls[1..]);
    }
  }

  ghost predicate EmptyForEver(s: State) {
    forall ls {:trigger Exec(s, ls)} :: Runnable(s, ls) ==> Exec(s, ls).chan == []
  }

  /**
   A pool that is empty when `Close` returns stays empty exactly if nobody is between the checks of Release and its
   push then, or the channel has no room for anything.
   */
  lemma EmptyForEverExactly(s: State)
    requires s.drain == Over && s.closed && s.chan == []
    ensures EmptyForEver(s) <==> Pushers(s) == {} || s.capacity == 0
  {
    if Pushers(s) == {} || s.capacity == 0 {
      forall ls | Runnable(s, ls) ensures Exec(s, ls).chan == [] { StaysEmpty(s, ls); }
    } else {
      var a :| a in Pushers(s);
      var ls := Then(s, Push(a), Step(s, Push(a)), [], Step(s, Push(a)));
      assert Exec(s, ls).chan == [s.callers[a].r];
    }
  }

  /** The exception is real: a Release that spans the swap strands an open region in the closed pool. */
  lemma SpanningReleaseStrands() returns (ls: Schedule)
    ensures Runnable(Init(1, 4), ls)
    ensures var s := Exec(Init(1, 4), ls);
            s.drain == Over && s.chan == [7] && 7 in s.regions && s.regions[7].open
  {
    var regions := map[7 := Region(Zeros(4), true)];
    var s1 := State(1, 4, false, [], map[], map[0 := Admitted], Off, {});
    var m1 := State(1, 4, false, [], map[], map[0 := Provisioning], Off, {});
    var s2 := State(1, 4, false, [], regions, map[0 := Using(7)], Off, {});
    var s3 := State(1, 4, false, [], regions, map[0 := Pushing(7)], Off, {});
    var s4 := State(1, 4, true, [], regions, map[0 := Pushing(7)], Taking, {7});
    var s5 := State(1, 4, true, [], regions, map[0 := Pushing(7)], Over, {7});
    var s6 := State(1, 4, true, [7], regions, map[], Over, {7});
    assert 0 in s3.callers && BeingPushed(s3) == {7};
    ls := Then(s5, Push(0), s6, [], s6);
    ls := Then(s4, DrainEnd, s5, ls, s6);
    ls := Then(s3, ClosePool, s4, ls, s6);
    ls := Then(s2, Release(0), s3, ls, s6);
    ls := Then(m1, Provision(0, 7), s2, ls, s6);
    ls := Then(s1, Miss(0), m1, ls, s6);
    ls := Then(Init(1, 4), Admit(0), s1, ls, s6);
  }

  /** Puts one step in front of a schedule. */
  lemma Then(s: State, l: Label, t: State, rest: Schedule, end: State) returns (ls: Schedule)
    requires Enabled(s, l) && Step(s, l) == t && Runnable(t, rest) && Exec(t, rest) == end
    ensures Runnable(s, ls) && Exec(s, ls) == end
  {
    ls := [l] + rest;
    assert ls[1..] == rest;
  }

  // ---------------------------------------------------------------- Acquire and Release come to an end

  /** A step of this caller. */
  predicate By(l: Label, a: Caller) {
    l != ClosePool && l != DrainTake && !l.DrainClose? && l != DrainEnd && l.a == a
  }

  ghost predicate AllBy(ls: Schedule, a: Caller) {
    forall i :: 0 <= i < |ls| ==> By(ls[i], a)
  }

  /** Puts a step of the caller in front. */
  lemma ThenBy(s: State, l: Label, rest: Schedule, a: Caller) returns (ls: Schedule)
    requires Enabled(s, l) && By(l, a) && Runnable(Step(s, l), rest) && AllBy(rest, a)
    ensures Runnable(s, ls) && Exec(s, ls) == Exec(Step(s, l), rest) && AllBy(ls, a)
  {
    ls := [l] + rest;
    assert ls[1..] == rest;
  }

  /**
   On an open pool Acquire can return by its own steps, whatever everybody else does: with the longest-pooled region,
   or, if there is none, with any new one that the provider registers, of the configured size and with zero bytes.
   */
  lemma AcquireCanSucceed(s: State, a: Caller, r: RegionId) returns (ls: Schedule)
    requires a !in s.callers && !s.closed && r !in s.regions
    ensures Runnable(s, ls) && AllBy(ls, a)
    ensures Exec(s, ls)
            == if s.chan != [] then s.(callers := s.callers[a := Using(s.chan[0])], chan := s.chan[1..])
               else s.(callers := s.callers[a := Using(r)], regions := s.regions[r := Region(Zeros(s.size), true)])
  {
    var s1 := Step(s, Admit(a));
    if s.chan != [] {
      assert Step(s1, Take(a)) == s.(callers := s.callers[a := Using(s.chan[0])], chan := s.chan[1..]);
      ls := ThenBy(s1, Take(a), [], a);
    } else {
      var s2 := Step(s1, Miss(a));
      assert Step(s2, Provision(a, r))
          == s.(callers := s.callers[a := Using(r)], regions := s.regions[r := Region(Zeros(s.size), true)]);
      ls := ThenBy(s2, Provision(a, r), [], a);
      ls := ThenBy(s1, Miss(a), ls, a);
    }
    ls := ThenBy(s, Admit(a), ls, a);
  }

  /** Or with an error, if the pool is empty and the registration fails, with nothing changed. */
  lemma AcquireCanFail(s: State, a: Caller) returns (ls: Schedule)
    requires a !in s.callers && !s.closed && s.chan == []
    ensures Runnable(s, ls) && AllBy(ls, a) && Exec(s, ls) == s
  {
    var s1 := Step(s, Admit(a));
    var s2 := Step(s1, Miss(a));
    assert Step(s2, ProvisionFails(a)) == s;
    ls := ThenBy(s2, ProvisionFails(a), [], a);
    ls := ThenBy(s1, Miss(a), ls, a);
    ls := ThenBy(s, Admit(a), ls, a);
  }

  /** What Release leaves if nobody interferes: the region at the end of the channel, or closed. */
  ghost predicate Returned(s: State, t: State, a: Caller, r: RegionId)
    requires r in s.regions
  {
    && t.callers == s.callers - {a}
    && if !s.closed && |s.regions[r].bytes| == s.size && |s.chan| < s.capacity then
         t.chan == s.chan + [r] && t.regions == s.regions
       else t.chan == s.chan && t.regions == s.regions[r := Region([], false)]
  }

  /**
   From every reachable state Release of a region in hand can return by its own steps: the region is pooled exactly if
   the pool is open, the size is right and there is room, and closed otherwise.
   */
  lemma ReleaseCanReturn(s: State, a: Caller) returns (ls: Schedule)
    requires Inv(s) && a in s.callers && s.callers[a].Using?
    ensures Runnable(s, ls) && AllBy(ls, a) && s.callers[a].r in s.regions
    ensures Returned(s, Exec(s, ls), a, s.callers[a].r)
  {
    assert HandOk(s, a);
    var s1 := Step(s, Release(a));
    if s1.callers[a].Closing? {
      ls := ThenBy(s1, CloseRegion(a, true), [], a);
    } else if |s.chan| < s.capacity {
      ls := ThenBy(s1, Push(a), [], a);
    } else {
      ls := ThenBy(Step(s1, Push(a)), CloseRegion(a, true), [], a);
      ls := ThenBy(s1, Push(a), ls, a);
    }
    ls := ThenBy(s, Release(a), ls, a);
    assert Exec(s, ls).callers == s.callers - {a};
  }
}
