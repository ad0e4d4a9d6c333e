/**
 Completion contexts as a protocol: every interleaving of creators, posting calls,
 queue readers and `Release` callers over the process-wide registry and a C
 allocator that may hand out a freed address again at once.

 One label is one atomic step of fi/context.go: a malloc, a free, an operation on
 the sync.Map, the compare-and-swap on `closed`, or a mutex region.
 */
module ContextProtocol {
  import opened Basics

  type CtxId = nat
  type RegionId = nat

  /** Who owns a live C block; recorded when the block is allocated. */
  datatype Owner = Token(c: CtxId) | Staging(c: CtxId) | Mapped(r: RegionId)

  datatype Block = Block(owner: Owner, bytes: seq<Byte>)

  /** How far a context has come, from malloc of its token to the free of it. */
  datatype Stage =
    | Minted      // token allocated, not yet in the registry
    | Open        // registered, `closed` is false
    | Claimed     // `closed` swapped by Release, registry entry not deleted yet
    | Detached    // released, out of the registry
    | Called      // completion callbacks done (or skipped)
    | Copied      // copy-back done (or skipped)
    | Unstaged    // staging buffer freed
    | Freed       // token freed

  function Rank(g: Stage): nat {
    match g
    case Minted => 0
    case Open => 1
    case Claimed => 2
    case Detached => 3
    case Called => 4
    case Copied => 5
    case Unstaged => 6
    case Freed => 7
  }

  /** Which call won the swap of `closed`. */
  datatype Winner = Nobody | Releaser | Resolver

  /** The one queue entry an accepted post may produce. */
  datatype Entry =
    | Absent                         // not read from the queue (yet)
    | Read                           // a reader holds the raw pointer
    | Spent(found: Option<CtxId>)    // looked up in the registry, with this outcome

  datatype Ctx = Ctx(
    ptr: Addr,
    buf: Addr,                       // staging buffer
    sink: Option<seq<Byte>>,         // contents of the slice registered for copy-back
    stage: Stage,
    winner: Winner,
    posted: bool,                    // accepted by the provider
    entry: Entry,
    loaded: bool,                    // taken from the registry by a reader that has not tried the swap yet
    called: nat)                     // times the completion callbacks ran

  datatype State = State(
    live: map<Addr, Block>,
    registry: map<Addr, CtxId>,
    ctxs: map<CtxId, Ctx>,
    regions: map<RegionId, Addr>,
    faults: nat)                     // frees and reads of an address that is not live

  datatype Label =
    | Mint(c: CtxId, a: Addr)
    | Store(c: CtxId)
    | Ensure(c: CtxId, n: nat, a: Addr)
    | Write(c: CtxId, data: seq<Byte>)
    | SetCopyBack(c: CtxId, slice: seq<Byte>)
    | Accept(c: CtxId)
    | ReadEntry(c: CtxId)
    | Lookup(c: CtxId)
    | SwapResolve(c: CtxId)
    | SwapRelease(c: CtxId)
    | Deregister(c: CtxId)
    | RunCallbacks(c: CtxId)
    | CopyBack(c: CtxId)
    | Unstage(c: CtxId)
    | FreeToken(c: CtxId)
    | MapRegion(r: RegionId, a: Addr, n: nat)
    | UnmapRegion(r: RegionId)

  function Init(): State {
    State(map[], map[], map[], map[], 0)
  }

  /** malloc returns any address that is not live now, however recently it was freed. */
  predicate Available(live: map<Addr, Block>, a: Addr) {
    a != NIL && a !in live
  }

  function Alloc(s: State, a: Addr, b: Block): State {
    s.(live := s.live[a := b])
  }

  /** free: the block goes; freeing anything else is counted as a fault. */
  function Free(s: State, a: Addr): State {
    if a in s.live then s.(live := s.live - {a}) else s.(faults := s.faults + 1)
  }

  function Put(s: State, c: CtxId, x: Ctx): State {
    s.(ctxs := s.ctxs[c := x])
  }

  function FreeStaging(s: State, c: CtxId): State
    requires c in s.ctxs
  {
    if s.ctxs[c].buf == NIL then s
    else Put(Free(s, s.ctxs[c].buf), c, s.ctxs[c].(buf := NIL))
  }

  function Poke(s: State, a: Addr, data: seq<Byte>): State
    requires a in s.live && |data| <= |s.live[a].bytes|
  {
    s.(live := s.live[a := s.live[a].(bytes := Overlay(s.live[a].bytes, data))])
  }

  /** `data` fits the staging buffer of `c`. */
  predicate Fits(s: State, c: CtxId, data: seq<Byte>)
    requires c in s.ctxs
  {
    s.ctxs[c].buf in s.live && |data| <= |s.live[s.ctxs[c].buf].bytes|
  }

  /** The context is at most as far as `Called`, so a copy-back is still to come. */
  predicate CopyPending(x: Ctx) {
    Rank(x.stage) <= 4
  }

  /**
   The program point that the thread taking the step has reached.  The steps of a posting
   call come before any release of that context (a context is posted once, and posting does
   not overlap a release of it); `SwapRelease` may otherwise happen at any time, also on a
   context that was posted.
   */
  predicate Enabled(s: State, l: Label) {
    match l
    case Mint(c, a) => c !in s.ctxs && Available(s.live, a)
    case Store(c) => c in s.ctxs && s.ctxs[c].stage == Minted
    case Ensure(c, n, a) =>
      c in s.ctxs && s.ctxs[c].stage == Open && !s.ctxs[c].posted && s.ctxs[c].sink == None && n > 0
      && (a == NIL || Available(s.live - {s.ctxs[c].buf}, a))
    case Write(c, data) => c in s.ctxs && s.ctxs[c].entry == Absent && Fits(s, c, data)
    case SetCopyBack(c, slice) =>
      c in s.ctxs && s.ctxs[c].stage == Open && !s.ctxs[c].posted
      && (s.ctxs[c].buf == NIL || Fits(s, c, slice))
    case Accept(c) => c in s.ctxs && s.ctxs[c].stage == Open && !s.ctxs[c].posted
    case ReadEntry(c) => c in s.ctxs && s.ctxs[c].posted && s.ctxs[c].entry == Absent
    case Lookup(c) => c in s.ctxs && s.ctxs[c].entry == Read
    case SwapResolve(c) => c in s.ctxs && s.ctxs[c].loaded
    case SwapRelease(c) => c in s.ctxs && s.ctxs[c].stage != Minted
    case Deregister(c) => c in s.ctxs && s.ctxs[c].stage == Claimed
    case RunCallbacks(c) => c in s.ctxs && s.ctxs[c].stage == Detached
    case CopyBack(c) => c in s.ctxs && s.ctxs[c].stage == Called
    case Unstage(c) => c in s.ctxs && s.ctxs[c].stage == Copied
    case FreeToken(c) => c in s.ctxs && s.ctxs[c].stage == Unstaged
    case MapRegion(r, a, n) => r !in s.regions && Available(s.live, a)
    case UnmapRegion(r) => r in s.regions
  }

  function DoMint(s: State, c: CtxId, a: Addr): State {
    Put(Alloc(s, a, Block(Token(c), [0])), c, Ctx(a, NIL, None, Minted, Nobody, false, Absent, false, 0))
  }

  function DoStore(s: State, c: CtxId): State
    requires c in s.ctxs
  {
    Put(s, c, s.ctxs[c].(stage := Open)).(registry := s.registry[s.ctxs[c].ptr := c])
  }

  /** ensureBuffer: keep a large enough buffer, otherwise free it and allocate a new one. */
  function DoEnsure(s: State, c: CtxId, n: nat, a: Addr): State
    requires c in s.ctxs
  {
    if s.ctxs[c].buf in s.live && |s.live[s.ctxs[c].buf].bytes| >= n then s
    else
      var t := FreeStaging(s, c);
      if a == NIL then t
      else Put(Alloc(t, a, Block(Staging(c), seq(n, _ => 0))), c, t.ctxs[c].(buf := a))
  }

  /** LoadAndDelete on the pointer of `c`'s entry. */
  function DoLookup(s: State, c: CtxId): State
    requires c in s.ctxs
  {
    var p := s.ctxs[c].ptr;
    if p in s.registry && s.registry[p] in s.ctxs then
      var d := s.registry[p];
      var t := Put(s, c, s.ctxs[c].(entry := Spent(Some(d))));
      Put(t, d, t.ctxs[d].(loaded := true)).(registry := s.registry - {p})
    else Put(s, c, s.ctxs[c].(entry := Spent(None)))
  }

  function SwapResolved(x: Ctx): Ctx {
    if x.stage == Open then x.(loaded := false, stage := Detached, winner := Resolver) else x.(loaded := false)
  }

  function SwapReleased(x: Ctx): Ctx {
    if x.stage == Open then x.(stage := Claimed, winner := Releaser) else x
  }

  function CallbacksRun(x: Ctx): Ctx {
    if x.winner == Resolver then x.(stage := Called, called := x.called + 1) else x.(stage := Called)
  }

  function DoDeregister(s: State, c: CtxId): State
    requires c in s.ctxs
  {
    Put(s, c, s.ctxs[c].(stage := Detached)).(registry := s.registry - {s.ctxs[c].ptr})
  }

  /** Copies into the registered slice if there is one and there is a staging buffer. */
  function DoCopyBack(s: State, c: CtxId): State
    requires c in s.ctxs
  {
    var x := s.ctxs[c].(stage := Copied);
    if x.sink == None || x.buf == NIL then Put(s, c, x)
    else if Fits(s, c, x.sink.value) then
      Put(s, c, x.(sink := Some(s.live[x.buf].bytes[..|x.sink.value|])))
    else Put(s, c, x).(faults := s.faults + 1)
  }

  function DoUnstage(s: State, c: CtxId): State
    requires c in s.ctxs
  {
    var t := FreeStaging(s, c);
    Put(t, c, t.ctxs[c].(stage := Unstaged))
  }

  function DoFreeToken(s: State, c: CtxId): State
    requires c in s.ctxs
  {
    Put(Free(s, s.ctxs[c].ptr), c, s.ctxs[c].(stage := Freed))
  }

  function DoMap(s: State, r: RegionId, a: Addr, n: nat): State {
    Alloc(s, a, Block(Mapped(r), seq(n, _ => 0))).(regions := s.regions[r := a])
  }

  function DoUnmap(s: State, r: RegionId): State
    requires r in s.regions
  {
    Free(s, s.regions[r]).(regions := s.regions - {r})
  }

  function Step(s: State, l: Label): State
    requires Enabled(s, l)
  {
    match l
    case Mint(c, a) => DoMint(s, c, a)
    case Store(c) => DoStore(s, c)
    case Ensure(c, n, a) => DoEnsure(s, c, n, a)
    case Write(c, data) => Poke(s, s.ctxs[c].buf, data)
    case SetCopyBack(c, slice) => Put(s, c, s.ctxs[c].(sink := Some(slice)))
    case Accept(c) => Put(s, c, s.ctxs[c].(posted := true))
    case ReadEntry(c) => Put(s, c, s.ctxs[c].(entry := Read))
    case Lookup(c) => DoLookup(s, c)
    case SwapResolve(c) => Put(s, c, SwapResolved(s.ctxs[c]))
    case SwapRelease(c) => Put(s, c, SwapReleased(s.ctxs[c]))
    case Deregister(c) => DoDeregister(s, c)
    case RunCallbacks(c) => Put(s, c, CallbacksRun(s.ctxs[c]))
    case CopyBack(c) => DoCopyBack(s, c)
    case Unstage(c) => DoUnstage(s, c)
    case FreeToken(c) => DoFreeToken(s, c)
    case MapRegion(r, a, n) => DoMap(s, r, a, n)
    case UnmapRegion(r) => DoUnmap(s, r)
  }

  // ---------------------------------------------------------------- invariant

  /** A live block belongs to exactly one object that has not given it back. */
  ghost predicate BlockOk(s: State, a: Addr)
    requires a in s.live
  {
    a != NIL &&
    match s.live[a].owner
    case Token(c) => c in s.ctxs && s.ctxs[c].ptr == a && s.ctxs[c].stage != Freed
    case Staging(c) => c in s.ctxs && s.ctxs[c].buf == a
    case Mapped(r) => r in s.regions && s.regions[r] == a
  }

  /** An unfreed token and a non-nil staging buffer are live blocks of this very context. */
  ghost predicate Owns(s: State, c: CtxId)
    requires c in s.ctxs
  {
    var x := s.ctxs[c];
    && (x.stage != Freed ==> x.ptr in s.live && s.live[x.ptr].owner == Token(c))
    && (x.buf != NIL ==> x.buf in s.live && s.live[x.buf].owner == Staging(c))
    && (x.buf != NIL && x.sink != None && CopyPending(x) ==> |x.sink.value| <= |s.live[x.buf].bytes|)
  }

  ghost predicate OwnsMapping(s: State, r: RegionId)
    requires r in s.regions
  {
    s.regions[r] in s.live && s.live[s.regions[r]].owner == Mapped(r)
  }

  ghost predicate Ledger(s: State) {
    && (forall a {:trigger BlockOk(s, a)} :: a in s.live ==> BlockOk(s, a))
    && (forall c {:trigger Owns(s, c)} :: c in s.ctxs ==> Owns(s, c))
    && (forall r {:trigger OwnsMapping(s, r)} :: r in s.regions ==> OwnsMapping(s, r))
  }

  /** A registry entry leads to the context that holds this pointer as its unfreed token. */
  ghost predicate EntryOk(s: State, a: Addr)
    requires a in s.registry
  {
    var c := s.registry[a];
    c in s.ctxs && s.ctxs[c].ptr == a && (s.ctxs[c].stage == Open || s.ctxs[c].stage == Claimed) && !s.ctxs[c].loaded
  }

  /** An open context that no reader has taken is registered under its pointer. */
  ghost predicate Registered(s: State, c: CtxId)
    requires c in s.ctxs
  {
    s.ctxs[c].stage == Open && !s.ctxs[c].loaded ==>
      s.ctxs[c].ptr in s.registry && s.registry[s.ctxs[c].ptr] == c
  }

  ghost predicate RegistryOk(s: State) {
    && (forall a {:trigger EntryOk(s, a)} :: a in s.registry ==> EntryOk(s, a))
    && (forall c {:trigger Registered(s, c)} :: c in s.ctxs ==> Registered(s, c))
  }

  /** What the fields of one context say about each other. */
  ghost predicate FieldsOk(x: Ctx) {
    && (x.stage == Minted ==> !x.posted && !x.loaded)
    && (!x.posted ==> x.entry == Absent)
    && (x.winner == Nobody <==> x.stage == Minted || x.stage == Open)
    && (x.stage == Claimed ==> x.winner == Releaser)
    && (x.stage == Unstaged || x.stage == Freed ==> x.buf == NIL)
    && x.called == if x.winner == Resolver && Rank(x.stage) >= 4 then 1 else 0
  }

  ghost predicate AllFieldsOk(s: State) {
    forall c {:trigger FieldsOk(s.ctxs[c])} :: c in s.ctxs ==> FieldsOk(s.ctxs[c])
  }

  /** The documented discipline for one context: `Release` only if it was not posted. */
  ghost predicate Tame(x: Ctx) {
    x.posted ==> x.winner != Releaser
  }

  ghost predicate Disciplined(s: State) {
    forall c {:trigger Tame(s.ctxs[c])} :: c in s.ctxs ==> Tame(s.ctxs[c])
  }

  /** A context reached by a reader was reached through its own entry, and its entry reached no other. */
  ghost predicate OwnEntry(c: CtxId, x: Ctx) {
    && (x.winner == Resolver || x.loaded ==> x.entry == Spent(Some(c)))
    && (x.entry.Spent? ==> x.entry.found == Some(c))
  }

  ghost predicate Exact(s: State) {
    Disciplined(s) ==> forall c {:trigger OwnEntry(c, s.ctxs[c])} :: c in s.ctxs ==> OwnEntry(c, s.ctxs[c])
  }

  ghost predicate Inv(s: State) {
    Ledger(s) && RegistryOk(s) && AllFieldsOk(s) && Exact(s) && s.faults == 0
  }

  lemma NilIsNotLive(s: State)
    requires Ledger(s)
    ensures NIL !in s.live
  {
    forall a | a in s.live ensures a != NIL { assert BlockOk(s, a); }
  }

  // ---------------------------------------------------------------- preservation, clause by clause

  /** Updating a context without touching its blocks keeps the ledger. */
  lemma PutKeepsLedger(s: State, c: CtxId, x: Ctx)
    requires Ledger(s) && c in s.ctxs
    requires x.ptr == s.ctxs[c].ptr && x.buf == s.ctxs[c].buf
    requires x.stage == Freed <==> s.ctxs[c].stage == Freed
    requires x.buf != NIL && x.sink != None && CopyPending(x) ==> Fits(s, c, x.sink.value)
    ensures Ledger(Put(s, c, x))
  {
    var t := Put(s, c, x);
    forall a | a in t.live ensures BlockOk(t, a) { assert BlockOk(s, a); }
    forall d | d in t.ctxs ensures Owns(t, d) { assert Owns(s, d); }
    forall r | r in t.regions ensures OwnsMapping(t, r) { assert OwnsMapping(s, r); }
  }

  /** Writing into a block in place keeps the ledger. */
  lemma PokeKeepsLedger(s: State, a: Addr, data: seq<Byte>)
    requires Ledger(s) && a in s.live && |data| <= |s.live[a].bytes|
    ensures Ledger(Poke(s, a, data))
  {
    var t := Poke(s, a, data);
    forall b | b in t.live ensures BlockOk(t, b) { assert BlockOk(s, b); }
    forall d | d in t.ctxs ensures Owns(t, d) { assert Owns(s, d); }
    forall r | r in t.regions ensures OwnsMapping(t, r) { assert OwnsMapping(s, r); }
  }

  lemma FreeStagingKeepsLedger(s: State, c: CtxId)
    requires Ledger(s) && c in s.ctxs
    ensures Ledger(FreeStaging(s, c)) && FreeStaging(s, c).faults == s.faults
  {
    var t := FreeStaging(s, c);
    assert Owns(s, c);
    forall b | b in t.live ensures BlockOk(t, b) { assert BlockOk(s, b); }
    forall d | d in t.ctxs ensures Owns(t, d) { assert Owns(s, d); }
    forall r | r in t.regions ensures OwnsMapping(t, r) { assert OwnsMapping(s, r); }
  }

  lemma FreeTokenKeepsLedger(s: State, c: CtxId)
    requires Ledger(s) && c in s.ctxs && s.ctxs[c].stage == Unstaged && s.ctxs[c].buf == NIL
    ensures Ledger(DoFreeToken(s, c)) && DoFreeToken(s, c).faults == s.faults
  {
    var t := DoFreeToken(s, c);
    assert Owns(s, c);
    forall b | b in t.live ensures BlockOk(t, b) { assert BlockOk(s, b); }
    forall d | d in t.ctxs ensures Owns(t, d) { assert Owns(s, d); }
    forall r | r in t.regions ensures OwnsMapping(t, r) { assert OwnsMapping(s, r); }
  }

  lemma MintKeepsLedger(s: State, c: CtxId, a: Addr)
    requires Ledger(s) && c !in s.ctxs && Available(s.live, a)
    ensures Ledger(DoMint(s, c, a))
  {
    var t := DoMint(s, c, a);
    forall b | b in t.live ensures BlockOk(t, b) { if b != a { assert BlockOk(s, b); } }
    forall d | d in t.ctxs ensures Owns(t, d) { if d != c { assert Owns(s, d); } }
    forall r | r in t.regions ensures OwnsMapping(t, r) { assert OwnsMapping(s, r); }
  }

  lemma NewStagingKeepsLedger(s: State, c: CtxId, n: nat, a: Addr)
    requires Ledger(s) && c in s.ctxs && s.ctxs[c].buf == NIL && s.ctxs[c].sink == None && Available(s.live, a)
    ensures Ledger(Put(Alloc(s, a, Block(Staging(c), seq(n, _ => 0))), c, s.ctxs[c].(buf := a)))
  {
    var t := Put(Alloc(s, a, Block(Staging(c), seq(n, _ => 0))), c, s.ctxs[c].(buf := a));
    forall b | b in t.live ensures BlockOk(t, b) { if b != a { assert BlockOk(s, b); } }
    forall d | d in t.ctxs ensures Owns(t, d) { assert Owns(s, d); }
    forall r | r in t.regions ensures OwnsMapping(t, r) { assert OwnsMapping(s, r); }
  }

  lemma EnsureKeepsLedger(s: State, c: CtxId, n: nat, a: Addr)
    requires Ledger(s) && Enabled(s, Ensure(c, n, a))
    ensures Ledger(DoEnsure(s, c, n, a)) && DoEnsure(s, c, n, a).faults == s.faults
  {
    FreeStagingKeepsLedger(s, c);
    var t := FreeStaging(s, c);
    assert Owns(s, c);
    if a != NIL && Available(t.live, a) { NewStagingKeepsLedger(t, c, n, a); }
  }

  lemma MapKeepsLedger(s: State, r: RegionId, a: Addr, n: nat)
    requires Ledger(s) && r !in s.regions && Available(s.live, a)
    ensures Ledger(DoMap(s, r, a, n))
  {
    var t := DoMap(s, r, a, n);
    forall b | b in t.live ensures BlockOk(t, b) { if b != a { assert BlockOk(s, b); } }
    forall d | d in t.ctxs ensures Owns(t, d) { assert Owns(s, d); }
    forall q | q in t.regions ensures OwnsMapping(t, q) { if q != r { assert OwnsMapping(s, q); } }
  }

  lemma UnmapKeepsLedger(s: State, r: RegionId)
    requires Ledger(s) && r in s.regions
    ensures Ledger(DoUnmap(s, r)) && DoUnmap(s, r).faults == s.faults
  {
    var t := DoUnmap(s, r);
    assert OwnsMapping(s, r);
    forall b | b in t.live ensures BlockOk(t, b) { assert BlockOk(s, b); }
    forall d | d in t.ctxs ensures Owns(t, d) { assert Owns(s, d); }
    forall q | q in t.regions ensures OwnsMapping(t, q) { assert OwnsMapping(s, q); }
  }

  /** In the registry's view: a context that LoadAndDelete may still hand out. */
  predicate Visible(x: Ctx) {
    (x.stage == Open || x.stage == Claimed) && !x.loaded
  }

  /** A change of one context that neither hides a visible one nor opens one keeps the registry. */
  lemma CtxChangeKeepsRegistry(s: State, t: State, c: CtxId)
    requires RegistryOk(s) && t.registry == s.registry
    requires c in t.ctxs && t.ctxs == s.ctxs[c := t.ctxs[c]]
    requires c in s.ctxs ==> t.ctxs[c].ptr == s.ctxs[c].ptr && (Visible(s.ctxs[c]) ==> Visible(t.ctxs[c]))
    requires t.ctxs[c].stage == Open && !t.ctxs[c].loaded ==>
               c in s.ctxs && s.ctxs[c].stage == Open && !s.ctxs[c].loaded
    ensures RegistryOk(t)
  {
    forall a | a in t.registry ensures EntryOk(t, a) { assert EntryOk(s, a); }
    forall d | d in t.ctxs ensures Registered(t, d) { if d in s.ctxs { assert Registered(s, d); } }
  }

  lemma StoreKeepsRegistry(s: State, c: CtxId)
    requires Ledger(s) && RegistryOk(s) && Enabled(s, Store(c)) && FieldsOk(s.ctxs[c])
    ensures RegistryOk(DoStore(s, c))
  {
    var t := DoStore(s, c);
    assert Owns(s, c);
    forall a | a in t.registry ensures EntryOk(t, a) { if a in s.registry { assert EntryOk(s, a); } }
    forall d | d in t.ctxs ensures Registered(t, d) { assert Registered(s, d) && Owns(s, d); }
  }

  lemma LookupKeepsRegistry(s: State, c: CtxId)
    requires RegistryOk(s) && c in s.ctxs
    ensures RegistryOk(DoLookup(s, c))
  {
    var t := DoLookup(s, c);
    var p := s.ctxs[c].ptr;
    if p in s.registry { assert EntryOk(s, p); }
    forall a | a in t.registry ensures EntryOk(t, a) { assert EntryOk(s, a); }
    forall d | d in t.ctxs ensures Registered(t, d) { assert Registered(s, d); }
  }

  lemma DeregisterKeepsRegistry(s: State, c: CtxId)
    requires Ledger(s) && RegistryOk(s) && Enabled(s, Deregister(c))
    ensures RegistryOk(DoDeregister(s, c))
  {
    var t := DoDeregister(s, c);
    assert Owns(s, c);
    forall a | a in t.registry ensures EntryOk(t, a) { assert EntryOk(s, a) && Owns(s, s.registry[a]); }
    forall d | d in t.ctxs ensures Registered(t, d) { assert Registered(s, d) && Owns(s, d); }
  }

  lemma CtxChangeKeepsFields(s: State, t: State, c: CtxId)
    requires AllFieldsOk(s) && c in t.ctxs && t.ctxs == s.ctxs[c := t.ctxs[c]] && FieldsOk(t.ctxs[c])
    ensures AllFieldsOk(t)
  {
    forall d | d in t.ctxs ensures FieldsOk(t.ctxs[d]) { if d != c { assert FieldsOk(s.ctxs[d]); } }
  }

  /** A change of one context that undoes no misuse, and leaves its own entry right, keeps exactness. */
  lemma CtxChangeKeepsExact(s: State, t: State, c: CtxId)
    requires Exact(s) && c in t.ctxs && t.ctxs == s.ctxs[c := t.ctxs[c]]
    requires c in s.ctxs && Tame(t.ctxs[c]) ==> Tame(s.ctxs[c])
    requires Tame(t.ctxs[c]) && (c in s.ctxs ==> OwnEntry(c, s.ctxs[c])) ==> OwnEntry(c, t.ctxs[c])
    ensures Exact(t)
  {
    if Disciplined(t) {
      assert Tame(t.ctxs[c]);
      forall d | d in s.ctxs ensures Tame(s.ctxs[d]) { assert Tame(t.ctxs[d]); }
      forall d | d in t.ctxs ensures OwnEntry(d, t.ctxs[d]) { if d in s.ctxs { assert OwnEntry(d, s.ctxs[d]); } }
    }
  }

  /** Under the discipline a lookup finds the context the entry was posted for. */
  lemma LookupKeepsExact(s: State, c: CtxId)
    requires Inv(s) && Enabled(s, Lookup(c))
    ensures Exact(DoLookup(s, c))
  {
    var t := DoLookup(s, c);
    if Disciplined(t) {
      forall d | d in s.ctxs ensures Tame(s.ctxs[d]) { assert Tame(t.ctxs[d]); }
      assert OwnEntry(c, s.ctxs[c]) && FieldsOk(s.ctxs[c]) && Registered(s, c) && Tame(s.ctxs[c]);
      forall d | d in t.ctxs ensures OwnEntry(d, t.ctxs[d]) { assert OwnEntry(d, s.ctxs[d]); }
    }
  }

  lemma LookupKeepsRest(s: State, c: CtxId)
    requires Ledger(s) && RegistryOk(s) && AllFieldsOk(s) && Enabled(s, Lookup(c))
    ensures Ledger(DoLookup(s, c)) && AllFieldsOk(DoLookup(s, c))
  {
    var p := s.ctxs[c].ptr;
    assert Owns(s, c) && FieldsOk(s.ctxs[c]);
    if p in s.registry {
      var d := s.registry[p];
      assert EntryOk(s, p) && Owns(s, d) && FieldsOk(s.ctxs[d]);
      var x := s.ctxs[c].(entry := Spent(Some(d)));
      var t := Put(s, c, x);
      PutKeepsLedger(s, c, x);
      CtxChangeKeepsFields(s, t, c);
      assert Owns(t, d);
      PutKeepsLedger(t, d, t.ctxs[d].(loaded := true));
      CtxChangeKeepsFields(t, Put(t, d, t.ctxs[d].(loaded := true)), d);
      RegistryIsNotInLedger(Put(t, d, t.ctxs[d].(loaded := true)), s.registry - {p});
    } else {
      PutKeepsLedger(s, c, s.ctxs[c].(entry := Spent(None)));
      CtxChangeKeepsFields(s, DoLookup(s, c), c);
    }
  }

  lemma RegistryIsNotInLedger(s: State, registry: map<Addr, CtxId>)
    requires Ledger(s)
    ensures Ledger(s.(registry := registry))
  {
    var t := s.(registry := registry);
    forall a | a in t.live ensures BlockOk(t, a) { assert BlockOk(s, a); }
    forall d | d in t.ctxs ensures Owns(t, d) { assert Owns(s, d); }
    forall r | r in t.regions ensures OwnsMapping(t, r) { assert OwnsMapping(s, r); }
  }

  /** An update of the fields of `c` that respects every clause of the invariant. */
  ghost predicate GoodUpdate(s: State, c: CtxId, x: Ctx)
    requires c in s.ctxs
  {
    var y := s.ctxs[c];
    && x.ptr == y.ptr && x.buf == y.buf && (x.stage == Freed <==> y.stage == Freed)
    && (x.buf != NIL && x.sink != None && CopyPending(x) ==> Fits(s, c, x.sink.value))
    && (Visible(y) ==> Visible(x))
    && (x.stage == Open && !x.loaded ==> y.stage == Open && !y.loaded)
    && FieldsOk(x)
    && (Tame(x) ==> Tame(y))
    && (Tame(x) && OwnEntry(c, y) ==> OwnEntry(c, x))
  }

  lemma GoodUpdateKeepsInv(s: State, c: CtxId, x: Ctx)
    requires Inv(s) && c in s.ctxs && GoodUpdate(s, c, x)
    ensures Inv(Put(s, c, x))
  {
    var t := Put(s, c, x);
    PutKeepsLedger(s, c, x);
    CtxChangeKeepsRegistry(s, t, c);
    CtxChangeKeepsFields(s, t, c);
    CtxChangeKeepsExact(s, t, c);
  }

  /** The swap by Release is misuse exactly when the context was posted, and then `Tame` fails. */
  lemma UpdateKeepsInv(s: State, l: Label)
    requires Inv(s) && Enabled(s, l)
    requires l.SetCopyBack? || l.Accept? || l.ReadEntry? || l.SwapResolve? || l.SwapRelease? || l.RunCallbacks?
    ensures Inv(Step(s, l))
  {
    var c := l.c;
    var y := s.ctxs[c];
    assert Owns(s, c) && FieldsOk(y);
    GoodUpdateKeepsInv(s, c,
      match l
      case SetCopyBack(_, slice) => y.(sink := Some(slice))
      case Accept(_) => y.(posted := true)
      case ReadEntry(_) => y.(entry := Read)
      case SwapResolve(_) => SwapResolved(y)
      case SwapRelease(_) => SwapReleased(y)
      case RunCallbacks(_) => CallbacksRun(y));
  }

  lemma CopyBackKeepsInv(s: State, c: CtxId)
    requires Inv(s) && Enabled(s, CopyBack(c))
    ensures Inv(DoCopyBack(s, c))
    ensures s.ctxs[c].buf != NIL && s.ctxs[c].sink != None ==> Fits(s, c, s.ctxs[c].sink.value)
  {
    assert Owns(s, c) && FieldsOk(s.ctxs[c]);
    GoodUpdateKeepsInv(s, c, DoCopyBack(s, c).ctxs[c]);
  }

  /** After the heap part of `Mint`, `Ensure`, `Unstage` and `FreeToken`, only one context has changed. */
  lemma CtxChangeKeepsRest(s: State, t: State, c: CtxId)
    requires Inv(s) && Ledger(t) && t.faults == 0 && t.registry == s.registry
    requires c in t.ctxs && t.ctxs == s.ctxs[c := t.ctxs[c]] && FieldsOk(t.ctxs[c])
    requires c in s.ctxs ==> t.ctxs[c].ptr == s.ctxs[c].ptr && (Visible(s.ctxs[c]) ==> Visible(t.ctxs[c]))
    requires t.ctxs[c].stage == Open && !t.ctxs[c].loaded ==>
               c in s.ctxs && s.ctxs[c].stage == Open && !s.ctxs[c].loaded
    requires c in s.ctxs && Tame(t.ctxs[c]) ==> Tame(s.ctxs[c])
    requires Tame(t.ctxs[c]) && (c in s.ctxs ==> OwnEntry(c, s.ctxs[c])) ==> OwnEntry(c, t.ctxs[c])
    ensures Inv(t)
  {
    CtxChangeKeepsRegistry(s, t, c);
    CtxChangeKeepsFields(s, t, c);
    CtxChangeKeepsExact(s, t, c);
  }

  lemma MintKeepsInv(s: State, c: CtxId, a: Addr)
    requires Inv(s) && Enabled(s, Mint(c, a))
    ensures Inv(DoMint(s, c, a))
  {
    MintKeepsLedger(s, c, a);
    CtxChangeKeepsRest(s, DoMint(s, c, a), c);
  }

  lemma StoreKeepsInv(s: State, c: CtxId)
    requires Inv(s) && Enabled(s, Store(c))
    ensures Inv(DoStore(s, c))
  {
    assert FieldsOk(s.ctxs[c]) && Owns(s, c);
    var x := s.ctxs[c].(stage := Open);
    PutKeepsLedger(s, c, x);
    RegistryIsNotInLedger(Put(s, c, x), DoStore(s, c).registry);
    StoreKeepsRegistry(s, c);
    CtxChangeKeepsFields(s, DoStore(s, c), c);
    CtxChangeKeepsExact(s, DoStore(s, c), c);
  }

  lemma EnsureKeepsInv(s: State, c: CtxId, n: nat, a: Addr)
    requires Inv(s) && Enabled(s, Ensure(c, n, a))
    ensures Inv(DoEnsure(s, c, n, a))
  {
    assert FieldsOk(s.ctxs[c]);
    EnsureKeepsLedger(s, c, n, a);
    CtxChangeKeepsRest(s, DoEnsure(s, c, n, a), c);
  }

  lemma WriteKeepsInv(s: State, c: CtxId, data: seq<Byte>)
    requires Inv(s) && Enabled(s, Write(c, data))
    ensures Inv(Poke(s, s.ctxs[c].buf, data))
  {
    var t := Poke(s, s.ctxs[c].buf, data);
    PokeKeepsLedger(s, s.ctxs[c].buf, data);
    assert FieldsOk(s.ctxs[c]);
    CtxChangeKeepsRest(s, t, c);
  }

  lemma LookupKeepsInv(s: State, c: CtxId)
    requires Inv(s) && Enabled(s, Lookup(c))
    ensures Inv(DoLookup(s, c))
  {
    LookupKeepsRest(s, c);
    LookupKeepsRegistry(s, c);
    LookupKeepsExact(s, c);
  }

  lemma DeregisterKeepsInv(s: State, c: CtxId)
    requires Inv(s) && Enabled(s, Deregister(c))
    ensures Inv(DoDeregister(s, c))
  {
    assert FieldsOk(s.ctxs[c]) && Owns(s, c);
    var x := s.ctxs[c].(stage := Detached);
    PutKeepsLedger(s, c, x);
    RegistryIsNotInLedger(Put(s, c, x), DoDeregister(s, c).registry);
    DeregisterKeepsRegistry(s, c);
    CtxChangeKeepsFields(s, DoDeregister(s, c), c);
    CtxChangeKeepsExact(s, DoDeregister(s, c), c);
  }

  lemma UnstageKeepsInv(s: State, c: CtxId)
    requires Inv(s) && Enabled(s, Unstage(c))
    ensures Inv(DoUnstage(s, c))
  {
    assert FieldsOk(s.ctxs[c]);
    var t := FreeStaging(s, c);
    FreeStagingKeepsLedger(s, c);
    assert Owns(s, c);
    PutKeepsLedger(t, c, t.ctxs[c].(stage := Unstaged));
    CtxChangeKeepsRest(s, DoUnstage(s, c), c);
  }

  lemma FreeTokenKeepsInv(s: State, c: CtxId)
    requires Inv(s) && Enabled(s, FreeToken(c))
    ensures Inv(DoFreeToken(s, c))
  {
    assert FieldsOk(s.ctxs[c]);
    FreeTokenKeepsLedger(s, c);
    CtxChangeKeepsRest(s, DoFreeToken(s, c), c);
  }

  lemma RegionsAreNotInRest(s: State, t: State)
    requires Inv(s) && Ledger(t) && t.faults == 0 && t.registry == s.registry && t.ctxs == s.ctxs
    ensures Inv(t)
  {
    forall a | a in t.registry ensures EntryOk(t, a) { assert EntryOk(s, a); }
    forall d | d in t.ctxs ensures Registered(t, d) { assert Registered(s, d); }
    if Disciplined(t) {
      forall d | d in s.ctxs ensures Tame(s.ctxs[d]) { assert Tame(t.ctxs[d]); }
    }
  }

  /** Every step, by every thread, keeps the invariant. */
  lemma StepKeepsInv(s: State, l: Label)
    requires Inv(s) && Enabled(s, l)
    ensures Inv(Step(s, l))
  {
    match l
    case Mint(c, a) => MintKeepsInv(s, c, a);
    case Store(c) => StoreKeepsInv(s, c);
    case Ensure(c, n, a) => EnsureKeepsInv(s, c, n, a);
    case Write(c, data) => WriteKeepsInv(s, c, data);
    case Lookup(c) => LookupKeepsInv(s, c);
    case Deregister(c) => DeregisterKeepsInv(s, c);
    case CopyBack(c) => CopyBackKeepsInv(s, c);
    case Unstage(c) => UnstageKeepsInv(s, c);
    case FreeToken(c) => FreeTokenKeepsInv(s, c);
    case MapRegion(r, a, n) =>
      MapKeepsLedger(s, r, a, n);
      RegionsAreNotInRest(s, DoMap(s, r, a, n));
    case UnmapRegion(r) =>
      UnmapKeepsLedger(s, r);
      RegionsAreNotInRest(s, DoUnmap(s, r));
    case _ => UpdateKeepsInv(s, l);
  }
}
