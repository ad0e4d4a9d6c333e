/** What holds in every run of the completion-context protocol. */
module ContextTheorems {
  import opened Basics
  import opened ContextProtocol

  /** A schedule: the steps of all threads in the order in which they happen. */
  type Schedule = seq<Label>

  predicate Runnable(s: State, ls: Schedule)
    decreases ls
  {
    ls == [] || (Enabled(s, ls[0]) && Runnable(Step(s, ls[0]), ls[1..]))
  }

  function Exec(s: State, ls: Schedule): State
    requires Runnable(s, ls)
    decreases ls
  {
    if ls == [] then s else Exec(Step(s, ls[0]), ls[1..])
  }

  lemma {:induction false} ExecKeepsInv(s: State, ls: Schedule)
    requires Inv(s) && Runnable(s, ls)
    ensures Inv(Exec(s, ls))
    decreases ls
  {
    if ls != [] {
      StepKeepsInv(s, ls[0]);
      ExecKeepsInv(Step(s, ls[0]), ls[1..]);
    }
  }

  lemma RunKeepsInv(ls: Schedule)
    requires Runnable(Init(), ls)
    ensures Inv(Exec(Init(), ls))
  {
    ExecKeepsInv(Init(), ls);
  }

  // ---------------------------------------------------------------- allocation ledger

  /** The C addresses that contexts and regions hold: unfreed tokens, staging buffers, region buffers. */
  ghost function Tokens(s: State): set<Addr> {
    set c | c in s.ctxs && s.ctxs[c].stage != Freed :: s.ctxs[c].ptr
  }

  ghost function Buffers(s: State): set<Addr> {
    set c | c in s.ctxs && s.ctxs[c].buf != NIL :: s.ctxs[c].buf
  }

  ghost function RegionBuffers(s: State): set<Addr> {
    set r | r in s.regions :: s.regions[r]
  }

  /**
   In every run the live C blocks are the disjoint union of the tokens, staging buffers and
   region buffers still owned, no two owners share a block, and nothing was freed twice or
   read after its free.
   */
  lemma LedgerInEveryRun(ls: Schedule)
    requires Runnable(Init(), ls)
    ensures var s := Exec(Init(), ls);
            && s.live.Keys == Tokens(s) + Buffers(s) + RegionBuffers(s)
            && Tokens(s) !! Buffers(s) !! RegionBuffers(s)
            && (forall c, d | c in s.ctxs && d in s.ctxs && c != d ::
                  && (s.ctxs[c].stage != Freed && s.ctxs[d].stage != Freed ==> s.ctxs[c].ptr != s.ctxs[d].ptr)
                  && (s.ctxs[c].buf != NIL ==> s.ctxs[c].buf != s.ctxs[d].buf))
            && s.faults == 0
  {
    RunKeepsInv(ls);
    var s := Exec(Init(), ls);
    forall a | a in s.live ensures a in Tokens(s) + Buffers(s) + RegionBuffers(s) {
      assert BlockOk(s, a);
    }
    forall c | c in s.ctxs
      ensures s.ctxs[c].stage != Freed ==> s.ctxs[c].ptr in s.live && s.live[s.ctxs[c].ptr].owner == Token(c)
      ensures s.ctxs[c].buf != NIL ==> s.ctxs[c].buf in s.live && s.live[s.ctxs[c].buf].owner == Staging(c)
    {
      assert Owns(s, c);
    }
    forall r | r in s.regions ensures s.regions[r] in s.live && s.live[s.regions[r]].owner == Mapped(r) {
      assert OwnsMapping(s, r);
    }
  }

  /** A context that has been freed, or whose release is over, keeps nothing alive. */
  lemma ReleaseLeavesNothing(ls: Schedule, c: CtxId)
    requires Runnable(Init(), ls) && c in Exec(Init(), ls).ctxs && Exec(Init(), ls).ctxs[c].stage == Freed
    ensures forall a | a in Exec(Init(), ls).live ::
              Exec(Init(), ls).live[a].owner != Token(c) && Exec(Init(), ls).live[a].owner != Staging(c)
    ensures forall a | a in Exec(Init(), ls).registry :: Exec(Init(), ls).registry[a] != c
  {
    RunKeepsInv(ls);
    var s := Exec(Init(), ls);
    assert FieldsOk(s.ctxs[c]);
    forall a | a in s.live ensures s.live[a].owner != Token(c) && s.live[a].owner != Staging(c) {
      assert BlockOk(s, a);
    }
    forall a | a in s.registry ensures s.registry[a] != c {
      assert EntryOk(s, a);
    }
  }

  /** `c` is still there and no earlier than before. */
  predicate Forward(s: State, t: State, c: CtxId) {
    c in s.ctxs ==> c in t.ctxs && Rank(s.ctxs[c].stage) <= Rank(t.ctxs[c].stage)
  }

  lemma FieldStepMovesForward(s: State, l: Label, c: CtxId)
    requires Enabled(s, l) && (l.SetCopyBack? || l.Accept? || l.ReadEntry? || l.SwapResolve? || l.SwapRelease?
                               || l.RunCallbacks?)
    ensures Forward(s, Step(s, l), c)
  {
  }

  /** Contexts are never forgotten, and only move forward from `Minted` to `Freed`. */
  lemma StepMovesForward(s: State, l: Label, c: CtxId)
    requires Enabled(s, l)
    ensures Forward(s, Step(s, l), c)
  {
    match l
    case Mint(d, a) => assert Forward(s, DoMint(s, d, a), c);
    case Store(d) => assert Forward(s, DoStore(s, d), c);
    case Ensure(d, n, a) => assert Forward(s, FreeStaging(s, d), c); assert Forward(s, DoEnsure(s, d, n, a), c);
    case Write(d, data) => assert Forward(s, Poke(s, s.ctxs[d].buf, data), c);
    case Lookup(d) => assert Forward(s, DoLookup(s, d), c);
    case Deregister(d) => assert Forward(s, DoDeregister(s, d), c);
    case CopyBack(d) => assert Forward(s, DoCopyBack(s, d), c);
    case Unstage(d) => assert Forward(s, DoUnstage(s, d), c);
    case FreeToken(d) => assert Forward(s, DoFreeToken(s, d), c);
    case MapRegion(r, a, n) => assert Forward(s, DoMap(s, r, a, n), c);
    case UnmapRegion(r) => assert Forward(s, DoUnmap(s, r), c);
    case _ => FieldStepMovesForward(s, l, c);
  }

  lemma {:induction false} FreedOnce(s: State, ls: Schedule, c: CtxId)
    requires Runnable(s, ls)
    ensures c in s.ctxs && s.ctxs[c].stage == Freed ==> multiset(ls)[FreeToken(c)] == 0
    ensures multiset(ls)[FreeToken(c)] <= 1
    decreases ls
  {
    if ls != [] {
      assert ls == [ls[0]] + ls[1..];
      var t := Step(s, ls[0]);
      StepMovesForward(s, ls[0], c);
      FreedOnce(t, ls[1..], c);
    }
  }

  /** However many threads release or resolve a context, its token is freed at most once. */
  lemma TokenFreedAtMostOnce(ls: Schedule, c: CtxId)
    requires Runnable(Init(), ls)
    ensures multiset(ls)[FreeToken(c)] <= 1
  {
    FreedOnce(Init(), ls, c);
  }

  /** Completion callbacks run at most once, and once the context is freed they ran iff a reader won the swap. */
  lemma CallbacksAtMostOnce(ls: Schedule, c: CtxId)
    requires Runnable(Init(), ls) && c in Exec(Init(), ls).ctxs
    ensures Exec(Init(), ls).ctxs[c].called <= 1
    ensures Exec(Init(), ls).ctxs[c].stage == Freed ==>
              (Exec(Init(), ls).ctxs[c].called == 1 <==> Exec(Init(), ls).ctxs[c].winner == Resolver)
  {
    RunKeepsInv(ls);
    assert FieldsOk(Exec(Init(), ls).ctxs[c]);
  }

  // ---------------------------------------------------------------- delivery under pointer reuse

  /** A registry entry leads to a context that is not released, or released but not deregistered yet. */
  lemma RegisteredIsVisible(s: State)
    requires Inv(s)
    ensures forall a {:trigger s.registry[a]} | a in s.registry ::
              s.registry[a] in s.ctxs && s.ctxs[s.registry[a]].ptr == a && Visible(s.ctxs[s.registry[a]])
  {
    forall a | a in s.registry
      ensures s.registry[a] in s.ctxs && s.ctxs[s.registry[a]].ptr == a && Visible(s.ctxs[s.registry[a]])
    {
      assert EntryOk(s, a);
    }
  }

  /**
   While a context is not freed, its pointer resolves to itself or to nothing, in every run,
   disciplined or not, and whatever addresses malloc hands out again.
   */
  lemma UnfreedPointerIsNotStolen(ls: Schedule, c: CtxId)
    requires Runnable(Init(), ls) && c in Exec(Init(), ls).ctxs && Exec(Init(), ls).ctxs[c].stage != Freed
    ensures var s := Exec(Init(), ls);
            s.ctxs[c].ptr in s.registry ==> s.registry[s.ctxs[c].ptr] == c
  {
    RunKeepsInv(ls);
    var s := Exec(Init(), ls);
    RegisteredIsVisible(s);
    assert Owns(s, c);
    if s.ctxs[c].ptr in s.registry {
      assert Owns(s, s.registry[s.ctxs[c].ptr]);
    }
  }

  /** Release and resolve deregister before they free: a token about to be freed is not in the registry. */
  lemma DeregisteredBeforeFreed(ls: Schedule, c: CtxId)
    requires Runnable(Init(), ls) && Enabled(Exec(Init(), ls), FreeToken(c))
    ensures Exec(Init(), ls).ctxs[c].ptr !in Exec(Init(), ls).registry
  {
    RunKeepsInv(ls);
    RegisteredIsVisible(Exec(Init(), ls));
    UnfreedPointerIsNotStolen(ls, c);
  }

  /**
   If no posted context was given to `Release`, every entry that was looked up resolved to the
   context created for its post, and every entry still to be looked up will: never to another
   context, and never to unknown.
   */
  lemma ExactDelivery(ls: Schedule, c: CtxId)
    requires Runnable(Init(), ls) && Disciplined(Exec(Init(), ls)) && c in Exec(Init(), ls).ctxs
    ensures var s := Exec(Init(), ls);
            && (s.ctxs[c].entry.Spent? ==> s.ctxs[c].entry.found == Some(c))
            && (s.ctxs[c].posted && !s.ctxs[c].entry.Spent? ==>
                  s.ctxs[c].ptr in s.registry && s.registry[s.ctxs[c].ptr] == c)
  {
    RunKeepsInv(ls);
    var s := Exec(Init(), ls);
    assert OwnEntry(c, s.ctxs[c]) && Tame(s.ctxs[c]) && FieldsOk(s.ctxs[c]) && Registered(s, c);
  }

  /**
   The discipline is needed: `Release` on a posted context frees its token, malloc hands the same
   address to a second context, and the first post's entry resolves to the second context.
   */
  lemma MisuseMisdelivers() returns (ls: Schedule)
    ensures Runnable(Init(), ls)
    ensures Exec(Init(), ls).ctxs.Keys == {0, 1}
    ensures Exec(Init(), ls).ctxs[0].entry == Spent(Some(1))
  {
    var released: State, freed: State, end: State;
    var a: Schedule, b: Schedule, c: Schedule;
    a, released := ReleasePosted();
    b, freed := FreeReleased();
    c, end := ReuseAddress();
    Chain(released, b, c);
    Chain(Init(), a, b + c);
    ls := a + (b + c);
  }

  /** A context that was posted and then released by its owner, seen after deregistration. */
  const RELEASED := Ctx(1, NIL, None, Detached, Releaser, true, Absent, false, 0)

  lemma ReleasePosted() returns (ls: Schedule, s: State)
    ensures Runnable(Init(), ls) && Exec(Init(), ls) == s
    ensures s == State(map[1 := Block(Token(0), [0])], map[], map[0 := RELEASED], map[], 0)
  {
    var x := Ctx(1, NIL, None, Minted, Nobody, false, Absent, false, 0);
    var live := map[1 := Block(Token(0), [0])];
    var s1 := State(live, map[], map[0 := x], map[], 0);
    var s2 := State(live, map[1 := 0], map[0 := x.(stage := Open)], map[], 0);
    var s3 := State(live, map[1 := 0], map[0 := x.(stage := Open, posted := true)], map[], 0);
    var s4 := State(live, map[1 := 0], map[0 := x.(stage := Claimed, winner := Releaser, posted := true)], map[], 0);
    s := State(live, map[], map[0 := RELEASED], map[], 0);
    ls := Then(s4, Deregister(0), s, [], s);
    ls := Then(s3, SwapRelease(0), s4, ls, s);
    ls := Then(s2, Accept(0), s3, ls, s);
    ls := Then(s1, Store(0), s2, ls, s);
    ls := Then(Init(), Mint(0, 1), s1, ls, s);
  }

  lemma FreeReleased() returns (ls: Schedule, s: State)
    ensures var r := State(map[1 := Block(Token(0), [0])], map[], map[0 := RELEASED], map[], 0);
            Runnable(r, ls) && Exec(r, ls) == s
    ensures s == State(map[], map[], map[0 := RELEASED.(stage := Freed)], map[], 0)
  {
    var live := map[1 := Block(Token(0), [0])];
    var s1 := State(live, map[], map[0 := RELEASED], map[], 0);
    var s2 := State(live, map[], map[0 := RELEASED.(stage := Called)], map[], 0);
    var s3 := State(live, map[], map[0 := RELEASED.(stage := Copied)], map[], 0);
    var s4 := State(live, map[], map[0 := RELEASED.(stage := Unstaged)], map[], 0);
    s := State(map[], map[], map[0 := RELEASED.(stage := Freed)], map[], 0);
    ls := Then(s4, FreeToken(0), s, [], s);
    ls := Then(s3, Unstage(0), s4, ls, s);
    ls := Then(s2, CopyBack(0), s3, ls, s);
    ls := Then(s1, RunCallbacks(0), s2, ls, s);
  }

  lemma ReuseAddress() returns (ls: Schedule, s: State)
    ensures var r := State(map[], map[], map[0 := RELEASED.(stage := Freed)], map[], 0);
            Runnable(r, ls) && Exec(r, ls) == s
    ensures s.ctxs.Keys == {0, 1} && s.ctxs[0].entry == Spent(Some(1))
  {
    var gone := RELEASED.(stage := Freed);
    var x := Ctx(1, NIL, None, Minted, Nobody, false, Absent, false, 0);
    var live := map[1 := Block(Token(1), [0])];
    var s1 := State(map[], map[], map[0 := gone], map[], 0);
    var s2 := State(live, map[], map[0 := gone, 1 := x], map[], 0);
    var s3 := State(live, map[1 := 1], map[0 := gone, 1 := x.(stage := Open)], map[], 0);
    var s4 := State(live, map[1 := 1], map[0 := gone.(entry := Read), 1 := x.(stage := Open)], map[], 0);
    s := State(live, map[], map[0 := gone.(entry := Spent(Some(1))), 1 := x.(stage := Open, loaded := true)], map[], 0);
    ls := Then(s4, Lookup(0), s, [], s);
    ls := Then(s3, ReadEntry(0), s4, ls, s);
    ls := Then(s2, Store(1), s3, ls, s);
    ls := Then(s1, Mint(1, 1), s2, ls, s);
  }

  /** The next step of a release of `c`. */
  function NextOfRelease(c: CtxId, g: Stage): Label {
    match g
    case Minted => Store(c)
    case Open => SwapRelease(c)
    case Claimed => Deregister(c)
    case Detached => RunCallbacks(c)
    case Called => CopyBack(c)
    case Copied => Unstage(c)
    case Unstaged => FreeToken(c)
    case Freed => ReadEntry(c)
  }

  predicate Outstanding(x: Ctx) {
    x.posted && !x.entry.Spent?
  }

  lemma ReleaseGoesOn(s: State, c: CtxId)
    requires Inv(s) && c in s.ctxs && s.ctxs[c].stage != Minted && s.ctxs[c].stage != Unstaged
             && s.ctxs[c].stage != Freed
    ensures var l := NextOfRelease(c, s.ctxs[c].stage);
            && Enabled(s, l) && Inv(Step(s, l)) && Step(s, l).ctxs.Keys == s.ctxs.Keys
            && Rank(Step(s, l).ctxs[c].stage) == Rank(s.ctxs[c].stage) + 1
            && Step(s, l).ctxs[c].posted == s.ctxs[c].posted && Step(s, l).ctxs[c].entry == s.ctxs[c].entry
  {
    StepKeepsInv(s, NextOfRelease(c, s.ctxs[c].stage));
  }

  /**
   And it is needed for every context in every state: as long as its entry is outstanding and its token is not freed,
   a `Release` of it lets its address go to any context `d` that is yet to be made, and its entry to that context.
   */
  lemma {:induction false} ReleaseOfPostedMisdelivers(s: State, c: CtxId, d: CtxId) returns (ls: Schedule)
    requires Inv(s) && c in s.ctxs && Outstanding(s.ctxs[c]) && s.ctxs[c].stage != Freed && d !in s.ctxs
    ensures Runnable(s, ls) && c in Exec(s, ls).ctxs && Exec(s, ls).ctxs[c].entry == Spent(Some(d))
    ensures |ls| > 0 && ls[0] == NextOfRelease(c, s.ctxs[c].stage)
    decreases 7 - Rank(s.ctxs[c].stage)
  {
    assert FieldsOk(s.ctxs[c]);
    if s.ctxs[c].stage == Unstaged {
      ls := FreedAndReused(s, c, d);
    } else {
      var l := NextOfRelease(c, s.ctxs[c].stage);
      ReleaseGoesOn(s, c);
      var rest := ReleaseOfPostedMisdelivers(Step(s, l), c, d);
      ls := Then(s, l, Step(s, l), rest, Exec(Step(s, l), rest));
    }
  }

  lemma FreedAndReused(s: State, c: CtxId, d: CtxId) returns (ls: Schedule)
    requires Inv(s) && c in s.ctxs && Outstanding(s.ctxs[c]) && s.ctxs[c].stage == Unstaged && d !in s.ctxs
    ensures Runnable(s, ls) && c in Exec(s, ls).ctxs && Exec(s, ls).ctxs[c].entry == Spent(Some(d))
    ensures |ls| > 0 && ls[0] == FreeToken(c)
  {
    assert Owns(s, c) && BlockOk(s, s.ctxs[c].ptr);
    var p := s.ctxs[c].ptr;
    var s1 := Step(s, FreeToken(c));
    var s2 := Step(s1, Mint(d, p));
    var s3 := Step(s2, Store(d));
    var rest := ReadAndLookup(s3, c, d);
    rest := Then(s2, Store(d), s3, rest, Exec(s3, rest));
    rest := Then(s1, Mint(d, p), s2, rest, Exec(s2, rest));
    ls := Then(s, FreeToken(c), s1, rest, Exec(s1, rest));
  }

  lemma ReadAndLookup(s: State, c: CtxId, d: CtxId) returns (ls: Schedule)
    requires c in s.ctxs && d in s.ctxs && Outstanding(s.ctxs[c]) && c != d
    requires s.ctxs[c].ptr in s.registry && s.registry[s.ctxs[c].ptr] == d
    ensures Runnable(s, ls) && c in Exec(s, ls).ctxs && Exec(s, ls).ctxs[c].entry == Spent(Some(d))
  {
    var t := if s.ctxs[c].entry == Absent then Step(s, ReadEntry(c)) else s;
    ls := Then(t, Lookup(c), Step(t, Lookup(c)), [], Step(t, Lookup(c)));
    if s.ctxs[c].entry == Absent {
      ls := Then(s, ReadEntry(c), t, ls, Exec(t, ls));
    }
  }

  /**
   A region can always be mapped at an address that malloc grants and unmapped again, which leaves the C heap as it was.
   */
  lemma RegionsComeAndGo(s: State, r: RegionId, a: Addr, n: nat) returns (ls: Schedule)
    requires r !in s.regions && Available(s.live, a)
    ensures Runnable(s, ls) && Exec(s, ls) == s && ls == [MapRegion(r, a, n), UnmapRegion(r)]
  {
    var t := Step(s, MapRegion(r, a, n));
    assert Step(t, UnmapRegion(r)).live == s.live && Step(t, UnmapRegion(r)).regions == s.regions;
    ls := Then(t, UnmapRegion(r), s, [], s);
    ls := Then(s, MapRegion(r, a, n), t, ls, s);
  }

  /** Puts one step in front of a schedule. */
  lemma Then(s: State, l: Label, t: State, rest: Schedule, end: State) returns (ls: Schedule)
    requires Enabled(s, l) && Step(s, l) == t && Runnable(t, rest) && Exec(t, rest) == end
    ensures ls == [l] + rest && Runnable(s, ls) && Exec(s, ls) == end
  {
    ls := [l] + rest;
    assert ls[1..] == rest;
  }

  lemma {:induction false} Chain(s: State, a: Schedule, b: Schedule)
    requires Runnable(s, a) && Runnable(Exec(s, a), b)
    ensures Runnable(s, a + b) && Exec(s, a + b) == Exec(Exec(s, a), b)
    decreases a
  {
    if a == [] {
      assert a + b == b;
    } else {
      Chain(Step(s, a[0]), a[1..], b);
      assert (a + b)[1..] == a[1..] + b;
    }
  }
}
