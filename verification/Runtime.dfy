/**
 The process-wide state behind fi/context.go, run by one goroutine at a time: the C heap,
 the Go byte slices that C code copies to and from, the completion-context registry, and the
 contexts themselves.

 `World` is the abstract value of that state.  The operations are specified as functions on
 worlds, and what the code promises is proved about those functions.
 */
module Runtime {
  import opened Basics

  type Callback = nat

  /** A Go slice: a part of a Go buffer. */
  type BufId = nat
  datatype Slice = Slice(buf: BufId, off: nat, len: nat)

  /** What a live C block was allocated for: a context token, the staging buffer of a context, or a memory region. */
  datatype Owner = Token | Staging(p: Addr) | Mapped

  datatype Block = Block(owner: Owner, bytes: seq<Byte>)

  /** What a release does that somebody can observe, in order. */
  datatype Event =
    | Ran(fn: Callback, p: Addr)       // completion callback
    | CopiedBack(slice: Slice)
    | FreedStaging(a: Addr)
    | Cleaned(fn: Callback)            // cleanup callback
    | FreedToken(p: Addr)

  /** The fields of an unreleased context, except its token. */
  datatype Ctx = Ctx(
    value: Option<nat>,
    onComplete: seq<Callback>,
    cleanups: seq<Callback>,
    buffer: Addr,
    bufCap: nat,
    copyBack: Option<Slice>)

  datatype World = World(
    live: map<Addr, Block>,
    user: map<BufId, seq<Byte>>,
    ctxs: map<Addr, Ctx>,              // unreleased contexts, which are the registered ones, by token
    log: seq<Event>)

  // ---------------------------------------------------------------- slices

  predicate InBounds(user: map<BufId, seq<Byte>>, s: Slice) {
    s.buf in user && s.off + s.len <= |user[s.buf]|
  }

  function Load(user: map<BufId, seq<Byte>>, s: Slice): (r: seq<Byte>)
    requires InBounds(user, s)
    ensures |r| == s.len
  {
    user[s.buf][s.off..s.off + s.len]
  }

  function Save(user: map<BufId, seq<Byte>>, s: Slice, data: seq<Byte>): (r: map<BufId, seq<Byte>>)
    requires InBounds(user, s) && |data| == s.len
    ensures r.Keys == user.Keys && |r[s.buf]| == |user[s.buf]|
    ensures InBounds(r, s) && Load(r, s) == data
  {
    user[s.buf := user[s.buf][..s.off] + data + user[s.buf][s.off + s.len..]]
  }

  // ---------------------------------------------------------------- worlds

  /** A live block belongs to a context that is not released, or to a region. */
  ghost predicate BlockOk(w: World, a: Addr)
    requires a in w.live
  {
    a != NIL &&
    match w.live[a].owner
    case Token => a in w.ctxs
    case Staging(p) => p in w.ctxs && w.ctxs[p].buffer == a
    case Mapped => true
  }

  ghost predicate CtxOk(w: World, p: Addr)
    requires p in w.ctxs
  {
    var x := w.ctxs[p];
    && p in w.live && w.live[p].owner == Token
    && (x.buffer != NIL ==>
          x.buffer in w.live && w.live[x.buffer].owner == Staging(p)
          && |w.live[x.buffer].bytes| == x.bufCap)
    && (x.buffer == NIL ==> x.bufCap == 0)
    && (x.copyBack.Some? ==> InBounds(w.user, x.copyBack.value)
                             && (x.buffer != NIL ==> x.copyBack.value.len <= x.bufCap))
  }

  ghost predicate Ok(w: World) {
    && (forall a {:trigger BlockOk(w, a)} :: a in w.live ==> BlockOk(w, a))
    && (forall p {:trigger CtxOk(w, p)} :: p in w.ctxs ==> CtxOk(w, p))
  }

  lemma NilIsDead(w: World)
    requires Ok(w)
    ensures NIL !in w.live && NIL !in w.ctxs
  {
    forall a | a in w.live ensures a != NIL { assert BlockOk(w, a); }
    forall p | p in w.ctxs ensures p != NIL { assert CtxOk(w, p) && BlockOk(w, p); }
  }

  const FRESH := Ctx(None, [], [], NIL, 0, None)

  function Minted(w: World, p: Addr, bytes: seq<Byte>): World {
    w.(live := w.live[p := Block(Token, bytes)], ctxs := w.ctxs[p := FRESH])
  }

  function Updated(w: World, p: Addr, x: Ctx): World {
    w.(ctxs := w.ctxs[p := x])
  }

  /** The old staging buffer goes, and `a` comes unless it is nil. */
  function Staged(w: World, p: Addr, a: Addr, bytes: seq<Byte>): World
    requires p in w.ctxs
  {
    var x := w.ctxs[p];
    var rest := if x.buffer == NIL then w.live else w.live - {x.buffer};
    if a == NIL then w.(live := rest, ctxs := w.ctxs[p := x.(buffer := NIL, bufCap := 0)])
    else w.(live := rest[a := Block(Staging(p), bytes)], ctxs := w.ctxs[p := x.(buffer := a, bufCap := |bytes|)])
  }

  /** memcpy into a live block. */
  function Poked(w: World, a: Addr, data: seq<Byte>): World
    requires a in w.live && |data| <= |w.live[a].bytes|
  {
    w.(live := w.live[a := w.live[a].(bytes := Overlay(w.live[a].bytes, data))])
  }

  function Rans(fns: seq<Callback>, p: Addr): (r: seq<Event>)
    ensures |r| == |fns|
    ensures forall i :: 0 <= i < |fns| ==> r[i] == Ran(fns[i], p)
  {
    seq(|fns|, i requires 0 <= i < |fns| => Ran(fns[i], p))
  }

  function Cleans(fns: seq<Callback>): (r: seq<Event>)
    ensures |r| == |fns|
    ensures forall i :: 0 <= i < |fns| ==> r[i] == Cleaned(fns[i])
  {
    seq(|fns|, i requires 0 <= i < |fns| => Cleaned(fns[i]))
  }

  /**
   The order of a release: completion callbacks as registered, copy-back, staging buffer, cleanups last first, token.
   */
  function TearTrace(completions: seq<Callback>, back: Option<Slice>, buffer: Addr, cleans: seq<Callback>,
                     p: Addr): seq<Event> {
    Rans(completions, p)
    + (if back.Some? && buffer != NIL then [CopiedBack(back.value)] else [])
    + (if buffer != NIL then [FreedStaging(buffer)] else [])
    + Cleans(Reverse(cleans))
    + [FreedToken(p)]
  }

  function ReleaseTrace(x: Ctx, p: Addr, runComplete: bool): seq<Event> {
    TearTrace(if runComplete then x.onComplete else [], x.copyBack, x.buffer, x.cleanups, p)
  }

  /** The user's memory after the release of `x`: its slice has the front of the staging buffer, if there are both. */
  function FilledBy(w: World, p: Addr): map<BufId, seq<Byte>>
    requires p in w.ctxs
  {
    var x := w.ctxs[p];
    if x.copyBack.Some? && x.buffer in w.live && InBounds(w.user, x.copyBack.value)
       && x.copyBack.value.len <= |w.live[x.buffer].bytes|
    then Save(w.user, x.copyBack.value, w.live[x.buffer].bytes[..x.copyBack.value.len])
    else w.user
  }

  function Released(w: World, p: Addr, runComplete: bool): World
    requires p in w.ctxs
  {
    var x := w.ctxs[p];
    World((if x.buffer == NIL then w.live else w.live - {x.buffer}) - {p}, FilledBy(w, p), w.ctxs - {p},
          w.log + ReleaseTrace(x, p, runComplete))
  }

  /** resolveCompletion: an unknown or nil pointer does nothing at all. */
  function Resolved(w: World, p: Addr): World {
    if p in w.ctxs then Released(w, p, true) else w
  }

  lemma TokensAreLive(w: World)
    requires Ok(w)
    ensures forall p {:trigger w.ctxs[p]} :: p in w.ctxs ==> p in w.live
    ensures forall a {:trigger w.live[a]} :: a in w.live && w.live[a].owner.Staging? ==> w.live[a].owner.p in w.live
  {
    forall p | p in w.ctxs ensures p in w.live { assert CtxOk(w, p); }
    forall a | a in w.live && w.live[a].owner.Staging? ensures w.live[a].owner.p in w.live {
      assert BlockOk(w, a) && CtxOk(w, w.live[a].owner.p);
    }
  }

  /** New callbacks, a new value or a new copy-back slice that fits. */
  lemma UpdateKeepsOk(w: World, p: Addr, x: Ctx)
    requires Ok(w) && p in w.ctxs && x.buffer == w.ctxs[p].buffer && x.bufCap == w.ctxs[p].bufCap
    requires x.copyBack == w.ctxs[p].copyBack
             || (x.copyBack.Some? && InBounds(w.user, x.copyBack.value)
                 && (x.buffer != NIL ==> x.copyBack.value.len <= x.bufCap))
    ensures Ok(Updated(w, p, x))
  {
    var t := Updated(w, p, x);
    forall a | a in t.live ensures BlockOk(t, a) { assert BlockOk(w, a); }
    forall q | q in t.ctxs ensures CtxOk(t, q) { assert CtxOk(w, q); }
  }

  lemma MintKeepsOk(w: World, p: Addr, bytes: seq<Byte>)
    requires Ok(w) && p != NIL && p !in w.live
    ensures Ok(Minted(w, p, bytes)) && p !in w.ctxs
  {
    var t := Minted(w, p, bytes);
    assert p !in w.ctxs by { forall q | q in w.ctxs ensures q in w.live { assert CtxOk(w, q); } }
    forall a | a in t.live ensures BlockOk(t, a) { if a != p { assert BlockOk(w, a); } }
    forall q | q in t.ctxs ensures CtxOk(t, q) { if q != p { assert CtxOk(w, q); } }
  }

  lemma StageKeepsOk(w: World, p: Addr, a: Addr, bytes: seq<Byte>)
    requires Ok(w) && p in w.ctxs && (a != NIL ==> a !in w.live - {w.ctxs[p].buffer})
    requires a != NIL && w.ctxs[p].copyBack.Some? ==> w.ctxs[p].copyBack.value.len <= |bytes|
    ensures Ok(Staged(w, p, a, bytes))
  {
    var t := Staged(w, p, a, bytes);
    assert CtxOk(w, p);
    NilIsDead(w);
    forall b | b in t.live ensures BlockOk(t, b) {
      if b != a {
        assert BlockOk(w, b) && b != w.ctxs[p].buffer;
        assert w.live[b].owner != Staging(p);
      }
    }
    forall q | q in t.ctxs ensures CtxOk(t, q) {
      assert CtxOk(w, q);
      if q != p && w.ctxs[q].buffer != NIL { assert w.ctxs[q].buffer != w.ctxs[p].buffer; }
    }
  }

  lemma PokeKeepsOk(w: World, a: Addr, data: seq<Byte>)
    requires Ok(w) && a in w.live && |data| <= |w.live[a].bytes|
    ensures Ok(Poked(w, a, data))
  {
    var t := Poked(w, a, data);
    forall b | b in t.live ensures BlockOk(t, b) { assert BlockOk(w, b); }
    forall q | q in t.ctxs ensures CtxOk(t, q) { assert CtxOk(w, q); }
  }

  lemma ReleaseKeepsOk(w: World, p: Addr, runComplete: bool)
    requires Ok(w) && p in w.ctxs
    ensures Ok(Released(w, p, runComplete))
  {
    var t := Released(w, p, runComplete);
    assert CtxOk(w, p);
    forall b | b in t.live ensures BlockOk(t, b) { assert BlockOk(w, b); }
    forall q | q in t.ctxs ensures CtxOk(t, q) { assert CtxOk(w, q); }
  }

  /** The blocks a release frees are live and different, and the slice fits the staging buffer. */
  lemma Takeable(w: World, p: Addr)
    requires Ok(w) && p in w.ctxs
    ensures p in w.live && p != NIL && p != w.ctxs[p].buffer
    ensures w.ctxs[p].buffer != NIL ==> w.ctxs[p].buffer in w.live
    ensures w.ctxs[p].buffer != NIL && w.ctxs[p].copyBack.Some? ==>
              InBounds(w.user, w.ctxs[p].copyBack.value)
              && w.ctxs[p].copyBack.value.len <= |w.live[w.ctxs[p].buffer].bytes|
    ensures FilledBy(w, p) == if w.ctxs[p].copyBack.Some? && w.ctxs[p].buffer != NIL
              then Save(w.user, w.ctxs[p].copyBack.value,
                        w.live[w.ctxs[p].buffer].bytes[..w.ctxs[p].copyBack.value.len])
              else w.user
  {
    NilIsDead(w);
    assert CtxOk(w, p);
  }

  lemma TornDown(w: World, p: Addr, runComplete: bool, live: map<Addr, Block>, user: map<BufId, seq<Byte>>,
                 log: seq<Event>)
    requires Ok(w) && p in w.ctxs
    requires live == (if w.ctxs[p].buffer == NIL then w.live else w.live - {w.ctxs[p].buffer}) - {p}
    requires user == FilledBy(w, p)
    requires log == w.log + ReleaseTrace(w.ctxs[p], p, runComplete)
    ensures World(live, user, w.ctxs - {p}, log) == Released(w, p, runComplete)
    ensures Ok(World(live, user, w.ctxs - {p}, log))
  {
    ReleaseKeepsOk(w, p, runComplete);
  }

  // ---------------------------------------------------------------- what a release means

  /**
   A release frees exactly the blocks of its own context, the token and the staging buffer, and leaves every
   other block as it is; afterwards nothing of the context is live or registered.
   */
  lemma ReleaseFreesItsOwn(w: World, p: Addr, runComplete: bool)
    requires Ok(w) && p in w.ctxs
    ensures var t := Released(w, p, runComplete);
            && (forall a :: a in t.live <==> a in w.live && a != p && w.live[a].owner != Staging(p))
            && (forall a :: a in t.live ==> t.live[a] == w.live[a])
            && p !in t.ctxs && (forall q :: q in w.ctxs && q != p ==> q in t.ctxs && t.ctxs[q] == w.ctxs[q])
  {
    var t := Released(w, p, runComplete);
    assert CtxOk(w, p);
    forall a ensures a in t.live <==> a in w.live && a != p && w.live[a].owner != Staging(p) {
      if a in w.live { assert BlockOk(w, a); }
    }
  }

  /**
   The slice registered for copy-back has the front of the staging buffer after the release, if there was one, and no
   other byte of the user's memory changes.
   */
  lemma ReleaseFillsTheSlice(w: World, p: Addr, runComplete: bool)
    requires Ok(w) && p in w.ctxs && w.ctxs[p].copyBack.Some?
    ensures var s, t := w.ctxs[p].copyBack.value, Released(w, p, runComplete);
            && InBounds(t.user, s)
            && (w.ctxs[p].buffer == NIL ==> t.user == w.user)
            && t.user.Keys == w.user.Keys
            && (forall b :: b in w.user ==> |t.user[b]| == |w.user[b]|)
            && (forall b, i :: b in w.user && 0 <= i < |w.user[b]| && !(b == s.buf && s.off <= i < s.off + s.len) ==>
                  t.user[b][i] == w.user[b][i])
            && (w.ctxs[p].buffer != NIL ==>
                  w.ctxs[p].buffer in w.live && s.len <= |w.live[w.ctxs[p].buffer].bytes|
                  && Load(t.user, s) == w.live[w.ctxs[p].buffer].bytes[..s.len])
  {
    Takeable(w, p);
    assert CtxOk(w, p);
  }

  /** What comes before the cleanups. */
  function FrontTrace(x: Ctx, p: Addr, runComplete: bool): seq<Event> {
    (if runComplete then Rans(x.onComplete, p) else [])
    + (if x.copyBack.Some? && x.buffer != NIL then [CopiedBack(x.copyBack.value)] else [])
    + (if x.buffer != NIL then [FreedStaging(x.buffer)] else [])
  }

  lemma TraceSplits(x: Ctx, p: Addr, runComplete: bool)
    ensures ReleaseTrace(x, p, runComplete) == FrontTrace(x, p, runComplete) + Cleans(Reverse(x.cleanups))
              + [FreedToken(p)]
  {
    if !runComplete { assert Rans([], p) == []; }
  }

  /** Completion callbacks run first and in the order of their registration. */
  lemma CallbacksInOrder(x: Ctx, p: Addr)
    ensures var t := ReleaseTrace(x, p, true);
            |x.onComplete| < |t| && forall i :: 0 <= i < |x.onComplete| ==> t[i] == Ran(x.onComplete[i], p)
  {
    TraceSplits(x, p, true);
    var rest := (if x.copyBack.Some? && x.buffer != NIL then [CopiedBack(x.copyBack.value)] else [])
                + (if x.buffer != NIL then [FreedStaging(x.buffer)] else []);
    assert FrontTrace(x, p, true) == Rans(x.onComplete, p) + rest;
    assert ReleaseTrace(x, p, true) == Rans(x.onComplete, p) + (rest + Cleans(Reverse(x.cleanups)) + [FreedToken(p)]);
  }

  /**
   Cleanups run after everything else but the free of the token, in the reverse of their registration; so what is
   between is copy-back and the staging buffer.
   */
  lemma CleanupsInReverse(x: Ctx, p: Addr, runComplete: bool)
    ensures var t := ReleaseTrace(x, p, runComplete);
            && |t| > |x.cleanups| && t[|t| - 1] == FreedToken(p)
            && forall i :: 0 <= i < |x.cleanups| ==> t[|t| - 2 - i] == Cleaned(x.cleanups[i])
  {
    TraceSplits(x, p, runComplete);
    var t, f, c := ReleaseTrace(x, p, runComplete), FrontTrace(x, p, runComplete), Cleans(Reverse(x.cleanups));
    forall i | 0 <= i < |x.cleanups| ensures t[|t| - 2 - i] == Cleaned(x.cleanups[i]) {
      assert t[|f| + (|c| - 1 - i)] == c[|c| - 1 - i];
    }
  }

  /** A second entry with the same pointer does nothing: the first took the context out of the registry. */
  lemma ResolveOnce(w: World, p: Addr)
    ensures Resolved(Resolved(w, p), p) == Resolved(w, p)
  {
  }

  // ---------------------------------------------------------------- contexts and the process

  /** malloc answers with this address: not nil, and not that of a live block. */
  predicate Grants(live: set<Addr>, at: Addr) {
    at != NIL && at !in live
  }

  class CompletionContext {
    var ptr: Addr
    var value: Option<nat>
    var onComplete: seq<Callback>
    var cleanups: seq<Callback>
    var buffer: Addr
    var bufCap: nat
    var closed: bool
    var copyBack: Option<Slice>

    constructor (p: Addr)
      ensures ptr == p && !closed && Fields() == FRESH
    {
      ptr, value, onComplete, cleanups, buffer, bufCap, closed, copyBack := p, None, [], [], NIL, 0, false, None;
    }

    ghost function Fields(): Ctx
      reads this
    {
      Ctx(value, onComplete, cleanups, buffer, bufCap, copyBack)
    }

    /** A method that changes only fields of this context, not its token or whether it is released. */
    twostate lemma FieldsMoved(g: Process)
      requires old(g.Valid()) && old(g.Knows(this)) && closed == old(closed) && ptr == old(ptr)
      requires unchanged(g) && forall p :: p in g.registry && g.registry[p] != this ==> unchanged(g.registry[p])
      ensures g.Registered() && g.Knows(this)
      ensures g.Abs() == if closed then old(g.Abs()) else Updated(old(g.Abs()), ptr, Fields())
    {
      assert forall p :: p in g.registry ==> old(g.registry[p].ptr) == p && !old(g.registry[p].closed);
      assert forall p :: p in g.registry && p != ptr ==> unchanged(g.registry[p]);
    }

    method SetValue(g: Process, v: nat)
      requires g.Valid() && g.Knows(this)
      modifies this`value
      ensures g.Valid() && g.Knows(this) && value == Some(v)
      ensures g.Abs() == if closed then old(g.Abs())
                         else Updated(old(g.Abs()), ptr, old(g.Abs()).ctxs[ptr].(value := Some(v)))
    {
      ghost var w := g.Abs();
      value := Some(v);
      FieldsMoved(g);
      if !closed { UpdateKeepsOk(w, ptr, Fields()); }
    }

    /** A nil function is ignored. */
    method AddOnComplete(g: Process, fn: Option<Callback>)
      requires g.Valid() && g.Knows(this)
      modifies this`onComplete
      ensures g.Valid() && g.Knows(this)
      ensures onComplete == old(onComplete) + (if fn.Some? then [fn.value] else [])
      ensures g.Abs() == if closed then old(g.Abs())
                         else Updated(old(g.Abs()), ptr, old(g.Abs()).ctxs[ptr].(onComplete := onComplete))
    {
      if fn == None {
        assert g.Abs() == Updated(g.Abs(), ptr, Fields()) || closed;
        return;
      }
      ghost var w := g.Abs();
      onComplete := onComplete + [fn.value];
      FieldsMoved(g);
      if !closed { UpdateKeepsOk(w, ptr, Fields()); }
    }

    /** A nil function is ignored. */
    method AddCleanup(g: Process, fn: Option<Callback>)
      requires g.Valid() && g.Knows(this)
      modifies this`cleanups
      ensures g.Valid() && g.Knows(this)
      ensures cleanups == old(cleanups) + (if fn.Some? then [fn.value] else [])
      ensures g.Abs() == if closed then old(g.Abs())
                         else Updated(old(g.Abs()), ptr, old(g.Abs()).ctxs[ptr].(cleanups := cleanups))
    {
      if fn == None {
        assert g.Abs() == Updated(g.Abs(), ptr, Fields()) || closed;
        return;
      }
      ghost var w := g.Abs();
      cleanups := cleanups + [fn.value];
      FieldsMoved(g);
      if !closed { UpdateKeepsOk(w, ptr, Fields()); }
    }

    /** The slice to fill at release time; it must fit the staging buffer if there is one. */
    method SetCopyBack(g: Process, s: Slice)
      requires g.Valid() && g.Knows(this) && !closed
      requires InBounds(g.user, s) && (buffer != NIL ==> s.len <= bufCap)
      modifies this`copyBack
      ensures g.Valid() && g.Knows(this) && copyBack == Some(s)
      ensures g.Abs() == Updated(old(g.Abs()), ptr, old(g.Abs()).ctxs[ptr].(copyBack := Some(s)))
    {
      ghost var w := g.Abs();
      copyBack := Some(s);
      FieldsMoved(g);
      UpdateKeepsOk(w, ptr, Fields());
    }

    /** There is room for `size` bytes: a buffer that is large enough, or malloc's answer once the old one is free. */
    ghost predicate Room(live: set<Addr>, size: nat, at: Addr)
      reads this
    {
      size == 0 || (buffer != NIL && bufCap >= size) || Grants(live - {buffer}, at)
    }

    /**
     Keeps a large enough buffer; otherwise frees it and allocates a new one, which fails and leaves none exactly if
     malloc does.  `at` is what malloc would answer.
     */
    method EnsureBuffer(g: Process, size: nat, at: Addr) returns (a: Addr, ok: bool)
      requires g.Valid() && g.Knows(this) && !closed
      requires copyBack.Some? ==> copyBack.value.len <= size
      modifies g`live, this`buffer, this`bufCap
      ensures g.Valid() && g.Knows(this)
      ensures ok <==> old(Room(g.live.Keys, size, at))
      ensures size == 0 ==> a == NIL && g.Abs() == old(g.Abs())
      ensures size > 0 && ok ==> a == buffer && a in g.live && size <= |g.live[a].bytes|
      ensures size > 0 && old(buffer) != NIL && old(bufCap) >= size ==> a == old(buffer) && g.Abs() == old(g.Abs())
      ensures size > 0 && !(old(buffer) != NIL && old(bufCap) >= size) ==>
                && a !in old(g.live) - {old(buffer)} && a == (if ok then at else NIL)
                && (ok ==> |g.live[a].bytes| == size)
                && g.Abs() == Staged(old(g.Abs()), ptr, a, if ok then g.live[a].bytes else [])
    {
      if size == 0 {
        return NIL, true;
      }
      assert CtxOk(g.Abs(), ptr);
      if buffer != NIL && bufCap >= size {
        return buffer, true;
      }
      NilIsDead(g.Abs());
      a := Renew(g, size, at);
      return a, a != NIL;
    }

    /** Frees the staging buffer, if there is one, and allocates one of `size` bytes. */
    method Renew(g: Process, size: nat, at: Addr) returns (a: Addr)
      requires g.Valid() && g.Knows(this) && !closed && (copyBack.Some? ==> copyBack.value.len <= size)
      modifies g`live, this`buffer, this`bufCap
      ensures g.Valid() && g.Knows(this)
      ensures a == if Grants(old(g.live).Keys - {old(buffer)}, at) then at else NIL
      ensures a != NIL ==> a == buffer && a in g.live && |g.live[a].bytes| == size
      ensures g.Abs() == Staged(old(g.Abs()), ptr, a, if a != NIL then g.live[a].bytes else [])
    {
      ghost var w := g.Abs();
      assert CtxOk(w, ptr);
      NilIsDead(w);
      if buffer != NIL {
        g.FreeBytes(buffer);
        buffer := NIL;
        bufCap := 0;
      }
      a := g.Malloc(size, Staging(ptr), at);
      if a == NIL {
        OwnFieldsMoved(g);
        StageKeepsOk(w, ptr, NIL, []);
        return NIL;
      }
      buffer := a;
      bufCap := size;
      OwnFieldsMoved(g);
      StageKeepsOk(w, ptr, a, g.live[a].bytes);
    }

    /** The same for a method that also changes the C heap. */
    twostate lemma OwnFieldsMoved(g: Process)
      requires old(g.Valid()) && old(g.Knows(this)) && old(!closed) && !closed && ptr == old(ptr)
      requires g.registry == old(g.registry) && g.user == old(g.user) && g.log == old(g.log)
      requires forall p :: p in g.registry && g.registry[p] != this ==> unchanged(g.registry[p])
      ensures g.Registered() && g.Knows(this)
      ensures g.Abs() == Updated(old(g.Abs()), ptr, Fields()).(live := g.live)
    {
      assert forall p :: p in g.registry ==> old(g.registry[p].ptr) == p && !old(g.registry[p].closed);
      assert forall p :: p in g.registry && p != ptr ==> unchanged(g.registry[p]);
    }

    /** The world with this context in it, whether or not its caller has taken it out of the registry. */
    ghost function With(g: Process): World
      reads g, g.registry.Values, this
    {
      if closed then g.Abs() else Updated(g.Abs(), ptr, Fields())
    }

    /** Marks the context as released, unlinks it, and takes what the release has to work on. */
    method Take(g: Process, remove: bool) returns (x: Ctx)
      requires g.Registered() && !closed
      requires if remove then g.Knows(this) else ptr !in g.registry
      modifies g`registry, this
      ensures closed && ptr == old(ptr) && x == old(Fields()) && Fields() == FRESH.(value := old(value))
      ensures g.Registered() && g.registry == old(g.registry) - {ptr}
      ensures g.Ctxs() == old(g.Ctxs()) - {ptr}
    {
      if remove {
        g.registry := g.registry - {ptr};
      }
      assert forall p :: p in g.registry ==> g.registry[p] != this;
      assert g.Ctxs() == old(g.Ctxs()) - {ptr};
      closed := true;
      x := Ctx(value, onComplete, cleanups, buffer, bufCap, copyBack);
      onComplete, cleanups, copyBack, buffer, bufCap := [], [], None, NIL, 0;
    }

    /**
     The one body behind Release and resolve.  Only the first call does anything.  `remove` is false when the
     caller has already taken the context out of the registry.
     */
    method ReleaseOnce(g: Process, runComplete: bool, remove: bool)
      requires g.Registered() && Ok(With(g))
      requires !closed && remove ==> g.Knows(this)
      requires !closed && !remove ==> ptr !in g.registry
      modifies g, this
      ensures closed && ptr == old(ptr) && value == old(value)
      ensures g.Valid() && Fields() == if old(closed) then old(Fields()) else FRESH.(value := old(value))
      ensures old(closed) ==> g.registry == old(g.registry) && g.Abs() == old(g.Abs())
      ensures !old(closed) ==>
                && g.registry == old(g.registry) - {ptr}
                && g.Abs() == Released(old(With(g)), ptr, runComplete)
    {
      if closed {
        return;
      }
      ghost var w := With(g);
      Takeable(w, ptr);
      var x := Take(g, remove);
      ghost var rest := g.Ctxs();
      assert rest == w.ctxs - {ptr};
      g.TearDown(if runComplete then x.onComplete else [], x.copyBack, x.buffer, x.cleanups, ptr);
      assert g.Ctxs() == rest;
      TornDown(w, ptr, runComplete, g.live, g.user, g.log);
      assert g.Abs() == Released(w, ptr, runComplete);
    }

    /** Release: for a context that was not posted. */
    method Release(g: Process)
      requires g.Valid() && g.Knows(this)
      modifies g, this
      ensures closed && ptr == old(ptr) && value == old(value)
      ensures g.Valid() && Fields() == if old(closed) then old(Fields()) else FRESH.(value := old(value))
      ensures old(closed) ==> g.registry == old(g.registry) && g.Abs() == old(g.Abs())
      ensures !old(closed) ==> g.registry == old(g.registry) - {ptr} && g.Abs() == Released(old(g.Abs()), ptr, false)
    {
      assert With(g) == g.Abs();
      ReleaseOnce(g, false, true);
    }
  }

  class Process {
    var live: map<Addr, Block>
    var user: map<BufId, seq<Byte>>
    var registry: map<Addr, CompletionContext>
    var log: seq<Event>

    constructor ()
      ensures Valid() && registry == map[] && live == map[]
    {
      live, user, registry, log := map[], map[], map[], [];
    }

    ghost function Abs(): World
      reads this, registry.Values
    {
      World(live, user, Ctxs(), log)
    }

    ghost function Ctxs(): map<Addr, Ctx>
      reads this`registry, registry.Values
    {
      map p | p in registry :: registry[p].Fields()
    }

    ghost predicate Registered()
      reads this`registry, registry.Values
    {
      forall p :: p in registry ==> registry[p].ptr == p && !registry[p].closed
    }

    ghost predicate Valid()
      reads this, registry.Values
    {
      Registered() && Ok(Abs())
    }

    /** `c` is registered, or released: what every context is from its creation on. */
    ghost predicate Knows(c: CompletionContext)
      reads this, c
    {
      !c.closed ==> c.ptr in registry && registry[c.ptr] == c
    }

    /** malloc, which would answer `at`: nil or an address that is not live now, with whatever bytes it has there. */
    method Malloc(n: nat, owner: Owner, at: Addr) returns (a: Addr)
      modifies this`live
      ensures a == (if Grants(old(live).Keys, at) then at else NIL)
      ensures a == NIL ==> live == old(live)
      ensures a != NIL ==> a in live && live == old(live)[a := live[a]]
      ensures a != NIL ==> live[a].owner == owner && |live[a].bytes| == n
    {
      if at == NIL || at in live {
        return NIL;
      }
      assert |seq(n, _ => 0 as Byte)| == n;
      var bytes: seq<Byte> :| |bytes| == n;
      live := live[at := Block(owner, bytes)];
      return at;
    }

    /** free: only of a live block. */
    method FreeBytes(a: Addr)
      requires a in live
      modifies this`live
      ensures live == old(live) - {a}
    {
      live := live - {a};
    }

    /** memcpy to the front of a live block. */
    method Memcpy(a: Addr, data: seq<Byte>)
      requires Valid() && a in live && |data| <= |live[a].bytes|
      modifies this`live
      ensures Valid() && Abs() == Poked(old(Abs()), a, data)
    {
      PokeKeepsOk(Abs(), a, data);
      live := live[a := live[a].(bytes := Overlay(live[a].bytes, data))];
    }

    /** The completion callbacks, first registered first. */
    method RunAll(fns: seq<Callback>, p: Addr)
      modifies this`log
      ensures log == old(log) + Rans(fns, p)
    {
      var i := 0;
      while i < |fns|
        invariant 0 <= i <= |fns|
        invariant log == old(log) + Rans(fns, p)[..i]
      {
        log := log + [Ran(fns[i], p)];
        i := i + 1;
      }
    }

    /** The cleanup callbacks, last registered first. */
    method CleanAll(fns: seq<Callback>)
      modifies this`log
      ensures log == old(log) + Cleans(Reverse(fns))
    {
      var i := |fns|;
      while i > 0
        invariant 0 <= i <= |fns|
        invariant log == old(log) + Cleans(Reverse(fns))[..|fns| - i]
      {
        i := i - 1;
        log := log + [Cleaned(fns[i])];
      }
    }

    /** Copy-back into the registered slice if there is a staging buffer, and the end of the staging buffer. */
    method GiveBuffer(back: Option<Slice>, buffer: Addr)
      requires buffer != NIL ==> buffer in live
      requires buffer != NIL && back.Some? ==> InBounds(user, back.value) && back.value.len <= |live[buffer].bytes|
      modifies this`live, this`user, this`log
      ensures live == if buffer == NIL then old(live) else old(live) - {buffer}
      ensures user == if back.Some? && buffer != NIL
                then Save(old(user), back.value, old(live[buffer].bytes)[..back.value.len])
                      else old(user)
      ensures log == old(log) + (if back.Some? && buffer != NIL then [CopiedBack(back.value)] else [])
                     + (if buffer != NIL then [FreedStaging(buffer)] else [])
    {
      if back.Some? && buffer != NIL {
        user := Save(user, back.value, live[buffer].bytes[..back.value.len]);
        log := log + [CopiedBack(back.value)];
      }
      if buffer != NIL {
        FreeBytes(buffer);
        log := log + [FreedStaging(buffer)];
      }
    }

    /** Everything a release does once the fields of the context are taken: callbacks, copy-back, frees, cleanups. */
    method TearDown(completions: seq<Callback>, back: Option<Slice>, buffer: Addr, cleans: seq<Callback>, p: Addr)
      requires p in live && p != buffer && (buffer != NIL ==> buffer in live)
      requires buffer != NIL && back.Some? ==> InBounds(user, back.value) && back.value.len <= |live[buffer].bytes|
      modifies this`live, this`user, this`log
      ensures live == (if buffer == NIL then old(live) else old(live) - {buffer}) - {p}
      ensures user == if back.Some? && buffer != NIL
                then Save(old(user), back.value, old(live[buffer].bytes)[..back.value.len])
                      else old(user)
      ensures log == old(log) + TearTrace(completions, back, buffer, cleans, p)
    {
      RunAll(completions, p);
      GiveBuffer(back, buffer);
      CleanAll(cleans);
      FreeBytes(p);
      log := log + [FreedToken(p)];
    }

    /** NewCompletionContext: a token, a context and a registry entry, or nil exactly if malloc failed. */
    method NewCompletionContext(at: Addr) returns (c: CompletionContext?)
      requires Valid()
      modifies this`live, this`registry
      ensures Valid()
      ensures c != null <==> Grants(old(live).Keys, at)
      ensures c == null ==> Abs() == old(Abs()) && registry == old(registry)
      ensures c != null ==>
                && c.ptr == at && fresh(c) && Knows(c) && !c.closed && c.Fields() == FRESH && c.ptr !in old(live)
                && c.ptr in live && c.ptr !in old(registry)
                && registry == old(registry)[c.ptr := c]
                && Abs() == Minted(old(Abs()), c.ptr, live[c.ptr].bytes)
    {
      ghost var w := Abs();
      var p := Malloc(1, Token, at);
      if p == NIL {
        return null;
      }
      MintKeepsOk(w, p, live[p].bytes);
      c := new CompletionContext(p);
      registry := registry[p := c];
      assert Ctxs() == w.ctxs[p := FRESH];
    }

    /** resolveCompletion: out of the registry first, then released with its callbacks. */
    method ResolveCompletion(p: Addr) returns (c: CompletionContext?)
      requires Valid()
      modifies this, registry.Values
      ensures Valid() && Abs() == Resolved(old(Abs()), p)
      ensures c == if p in old(registry) then old(registry[p]) else null
      ensures registry == old(registry) - {p}
      ensures c != null ==> c.closed && c.Fields() == FRESH.(value := old(c.value))
      ensures forall q :: q in registry ==> unchanged(registry[q])
    {
      NilIsDead(Abs());
      if p == NIL || p !in registry {
        return null;
      }
      c := registry[p];
      ghost var w := Abs();
      registry := registry - {p};
      assert c.With(this) == w;
      c.ReleaseOnce(this, true, false);
    }
  }
}
