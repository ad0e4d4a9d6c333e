/**
 Handle ownership around one MSG listener as a protocol: any number of handshakes, any number of accepted clients,
 and any number of concurrent Close calls on each client and on the listener, handle by handle.
 */
module HandleProtocol {

  type ClientId = nat

  datatype Handle =
    | Fabric | Domain | Passive | ListenerQueue
    | EndpointOf(c: ClientId) | CqOf(c: ClientId) | EqOf(c: ClientId)

  /** A connection: from its request to the end of its client. */
  datatype Stage =
    | OpenedNone | OpenedEndpoint | OpenedCq | OpenedEq   // in handleConnReq
    | Undoing(left: seq<Handle>)                          // a failed exit of handleConnReq
    | Accepted                                            // a client was returned
    | Closing(left: seq<Handle>)                          // the one Close that won the swap
    | Gone

  /** The listener's own Close. */
  datatype Closer = Serving | Shutting(left: seq<Handle>) | Shut

  datatype State = State(
    clients: map<ClientId, Stage>,
    closer: Closer,
    made: set<Handle>,           // handles that were ever opened
    closes: multiset<Handle>)    // how often the provider was asked to close each

  datatype Label =
    | Request(c: ClientId)
    | Open(c: ClientId)
    | FailSetup(c: ClientId)
    | Accept(c: ClientId)
    | CloseClient(c: ClientId)
    | CloseNext(c: ClientId)
    | CloseListener
    | ListenerNext

  function Init(): State {
    State(map[], Serving, {Passive, ListenerQueue, Domain, Fabric}, multiset{})
  }

  /** The handle that the next step of handleConnReq opens. */
  function Next(c: ClientId, g: Stage): Handle {
    match g
    case OpenedNone => EndpointOf(c)
    case OpenedEndpoint => CqOf(c)
    case _ => EqOf(c)
  }

  /** What handleConnReq has opened so far, in the order in which a failed exit closes it. */
  function Undo(c: ClientId, g: Stage): seq<Handle> {
    match g
    case OpenedEndpoint => [EndpointOf(c)]
    case OpenedCq => [CqOf(c), EndpointOf(c)]
    case OpenedEq => [EqOf(c), CqOf(c), EndpointOf(c)]
    case _ => []
  }

  predicate Setup(g: Stage) {
    g == OpenedNone || g == OpenedEndpoint || g == OpenedCq || g == OpenedEq
  }

  predicate Leaving(g: Stage) {
    g.Undoing? || g.Closing?
  }

  predicate Enabled(s: State, l: Label) {
    match l
    case Request(c) => c !in s.clients
    case Open(c) => c in s.clients && Setup(s.clients[c]) && s.clients[c] != OpenedEq
    case FailSetup(c) => c in s.clients && Setup(s.clients[c])
    case Accept(c) => c in s.clients && s.clients[c] == OpenedEq
    case CloseClient(c) => c in s.clients && (s.clients[c] == Accepted || s.clients[c].Closing? || s.clients[c] == Gone)
    case CloseNext(c) => c in s.clients && Leaving(s.clients[c])
    case CloseListener => true
    case ListenerNext => s.closer.Shutting?
  }

  function Opened(g: Stage): Stage {
    match g
    case OpenedNone => OpenedEndpoint
    case OpenedEndpoint => OpenedCq
    case _ => OpenedEq
  }

  function At(s: State, c: ClientId, g: Stage): State {
    s.(clients := s.clients[c := g])
  }

  /** The next handle of a list is closed. */
  function CloseOne(s: State, c: ClientId): State
    requires c in s.clients && Leaving(s.clients[c])
  {
    var g := s.clients[c];
    if g.left == [] then At(s, c, Gone)
    else At(s.(closes := s.closes + multiset{g.left[0]}), c, g.(left := g.left[1..]))
  }

  function ListenerOne(s: State): State
    requires s.closer.Shutting?
  {
    if s.closer.left == [] then s.(closer := Shut)
    else s.(closes := s.closes + multiset{s.closer.left[0]}, closer := Shutting(s.closer.left[1..]))
  }

  function Step(s: State, l: Label): State
    requires Enabled(s, l)
  {
    match l
    case Request(c) => At(s, c, OpenedNone)
    case Open(c) => At(s.(made := s.made + {Next(c, s.clients[c])}), c, Opened(s.clients[c]))
    case FailSetup(c) => At(s, c, Undoing(Undo(c, s.clients[c])))
    case Accept(c) => At(s, c, Accepted)
    case CloseClient(c) =>
      if s.clients[c] == Accepted then At(s, c, Closing([EndpointOf(c), CqOf(c), EqOf(c)])) else s
    case CloseNext(c) => CloseOne(s, c)
    case CloseListener =>
      if s.closer == Serving then s.(closer := Shutting([Passive, ListenerQueue, Domain, Fabric])) else s
    case ListenerNext => ListenerOne(s)
  }

  // ---------------------------------------------------------------- invariant

  function OwnerOf(h: Handle): int {
    match h
    case EndpointOf(c) => c
    case CqOf(c) => c
    case EqOf(c) => c
    case _ => -1
  }

  /** The handles of a connection that are open and will be closed by whoever ends it. */
  function Owed(c: ClientId, g: Stage): seq<Handle> {
    match g
    case Undoing(left) => left
    case Accepted => [EndpointOf(c), CqOf(c), EqOf(c)]
    case Closing(left) => left
    case Gone => []
    case _ => Undo(c, g)
  }

  /** The handles that the listener has yet to close: among them the shared ones, and no client's. */
  function ListenerOwes(k: Closer): seq<Handle> {
    match k
    case Serving => [Passive, ListenerQueue, Domain, Fabric]
    case Shutting(left) => left
    case Shut => []
  }

  /** Whether a close of a handle is still to come. */
  predicate Due(s: State, h: Handle) {
    if OwnerOf(h) < 0 then h in ListenerOwes(s.closer)
    else OwnerOf(h) in s.clients && h in Owed(OwnerOf(h), s.clients[OwnerOf(h)])
  }

  predicate Distinct(left: seq<Handle>) {
    forall i, j :: 0 <= i < j < |left| ==> left[i] != left[j]
  }

  /** Every handle ever opened has one close, done or to come; a handle never opened has none. */
  ghost predicate Balanced(s: State, h: Handle) {
    s.closes[h] + (if Due(s, h) then 1 else 0) == if h in s.made then 1 else 0
  }

  /** Who is closing handles has only its own on the list. */
  ghost predicate Own(s: State, c: ClientId)
    requires c in s.clients
  {
    && Distinct(Owed(c, s.clients[c]))
    && (forall h :: h in Owed(c, s.clients[c]) ==> OwnerOf(h) == c)
    && (Setup(s.clients[c]) ==> forall h :: h in s.made && OwnerOf(h) == c ==> h in Undo(c, s.clients[c]))
  }

  ghost predicate Inv(s: State) {
    && (forall h {:trigger Balanced(s, h)} :: Balanced(s, h))
    && (forall c {:trigger Own(s, c)} :: c in s.clients ==> Own(s, c))
    && Distinct(ListenerOwes(s.closer)) && (forall h :: h in ListenerOwes(s.closer) ==> OwnerOf(h) == -1)
    && (forall h :: h in s.made ==> OwnerOf(h) == -1 || OwnerOf(h) in s.clients)
  }

  lemma HeadCounts(left: seq<Handle>)
    requires left != [] && Distinct(left)
    ensures left[0] !in left[1..] && Distinct(left[1..])
    ensures forall x :: x in left <==> x == left[0] || x in left[1..]
  {
    assert left == [left[0]] + left[1..];
  }

  lemma OpenKeepsBalance(s: State, c: ClientId, h: Handle)
    requires Inv(s) && Enabled(s, Open(c))
    ensures Balanced(Step(s, Open(c)), h)
  {
    var n := Next(c, s.clients[c]);
    assert Balanced(s, h) && Balanced(s, n) && Own(s, c);
    assert n !in s.made;
    match s.clients[c]
    case OpenedNone =>
    case OpenedEndpoint =>
    case OpenedCq =>
  }

  lemma CloseOneKeepsBalance(s: State, c: ClientId, h: Handle)
    requires Inv(s) && Enabled(s, CloseNext(c))
    ensures Balanced(CloseOne(s, c), h)
  {
    assert Balanced(s, h) && Own(s, c);
    var left := s.clients[c].left;
    if left != [] {
      assert left[0] in Owed(c, s.clients[c]);
      HeadCounts(left);
    }
  }

  lemma ListenerOneKeepsBalance(s: State, h: Handle)
    requires Inv(s) && s.closer.Shutting?
    ensures Balanced(ListenerOne(s), h)
  {
    assert Balanced(s, h);
    var left := s.closer.left;
    if left != [] {
      assert left[0] in ListenerOwes(s.closer);
      HeadCounts(left);
    }
  }

  /**
   Handing a connection on, from handleConnReq to a failed exit or to a client and on to its Close, changes no count.
   */
  lemma HandOverKeepsDue(s: State, l: Label, h: Handle)
    requires Inv(s) && Enabled(s, l) && (l.FailSetup? || l.Accept? || l.CloseClient?)
    ensures Due(Step(s, l), h) <==> Due(s, h)
  {
    match l
    case FailSetup(c) => assert Owed(c, Undoing(Undo(c, s.clients[c]))) == Owed(c, s.clients[c]);
    case Accept(c) =>
    case CloseClient(c) =>
  }

  lemma StepKeepsBalance(s: State, l: Label, h: Handle)
    requires Inv(s) && Enabled(s, l)
    ensures Balanced(Step(s, l), h)
  {
    assert Balanced(s, h);
    match l
    case Open(c) => OpenKeepsBalance(s, c, h);
    case CloseNext(c) => CloseOneKeepsBalance(s, c, h);
    case ListenerNext => ListenerOneKeepsBalance(s, h);
    case Request(c) => assert Owed(c, OpenedNone) == [];
    case CloseListener => assert ListenerOwes(Step(s, l).closer) == ListenerOwes(s.closer);
    case _ => HandOverKeepsDue(s, l, h);
  }

  lemma StepKeepsOwn(s: State, l: Label, c: ClientId)
    requires Inv(s) && Enabled(s, l) && c in Step(s, l).clients
    ensures Own(Step(s, l), c)
  {
    if c in s.clients {
      assert Own(s, c);
      if l == CloseNext(c) { CloseOneKeepsOwn(s, c); }
    }
  }

  lemma CloseOneKeepsOwn(s: State, c: ClientId)
    requires c in s.clients && Leaving(s.clients[c]) && Own(s, c)
    ensures Own(CloseOne(s, c), c)
  {
    if s.clients[c].left != [] { HeadCounts(s.clients[c].left); }
  }

  lemma StepKeepsInv(s: State, l: Label)
    requires Inv(s) && Enabled(s, l)
    ensures Inv(Step(s, l))
  {
    forall h ensures Balanced(Step(s, l), h) { StepKeepsBalance(s, l, h); }
    forall c | c in Step(s, l).clients ensures Own(Step(s, l), c) { StepKeepsOwn(s, l, c); }
    if l == ListenerNext && s.closer.left != [] { HeadCounts(s.closer.left); }
  }

  // ---------------------------------------------------------------- every run

  type Schedule = seq<Label>

  predicate Runnable(s: State, ls: Schedule)
    decreases ls
  {
    ls == [] || (Enabled(s, ls[0]) && Runnable(Step(s, ls[0]), ls[1..]))
  }

  function Exec(s: State, ls: Schedule): State
    requires Runnable(s, ls)
    decreases ls
  {
    if ls == [] then s else Exec(Step(s, ls[0]), ls[1..])
  }

  lemma {:induction false} ExecKeepsInv(s: State, ls: Schedule)
    requires Inv(s) && Runnable(s, ls)
    ensures Inv(Exec(s, ls))
    decreases ls
  {
    if ls != [] {
      StepKeepsInv(s, ls[0]);
      ExecKeepsInv(Step(s, ls[0]), ls[1..]);
    }
  }

  lemma InitHolds()
    ensures Inv(Init())
  {
    forall h ensures Balanced(Init(), h) { }
  }

  /**
   In every run no handle is closed twice.  A connection that is over, by a failed exit of handleConnReq or by its
   client's Close, has closed everything that was opened for it, once; an accepted client that nobody closes keeps
   its three handles open.
   */
  lemma ConnectionHandlesClosedOnce(ls: Schedule, h: Handle)
    requires Runnable(Init(), ls) && OwnerOf(h) >= 0
    ensures var s := Exec(Init(), ls);
            && s.closes[h] <= 1
            && (OwnerOf(h) in s.clients && s.clients[OwnerOf(h)] == Gone ==>
                s.closes[h] == if h in s.made then 1 else 0)
            && (OwnerOf(h) in s.clients && s.clients[OwnerOf(h)] == Accepted ==> h in s.made && s.closes[h] == 0)
  {
    InitHolds();
    ExecKeepsInv(Init(), ls);
    assert Balanced(Exec(Init(), ls), h);
  }

  predicate ByListener(l: Label) {
    l == ListenerNext
  }

  lemma SharedStep(s: State, l: Label, h: Handle)
    requires Inv(s) && Enabled(s, l) && OwnerOf(h) < 0 && !ByListener(l)
    ensures Step(s, l).closes[h] == s.closes[h]
  {
    match l
    case CloseNext(c) =>
      assert Own(s, c);
      if s.clients[c].left != [] { assert s.clients[c].left[0] in Owed(c, s.clients[c]); }
    case _ =>
  }

  /**
   Fabric and domain, and the listener's own endpoint and queue, are closed by the listener's Close and by nothing
   else, whatever order clients and listener are closed in; at most once, and once when it has returned.
   */
  lemma SharedHandlesAreTheListeners(ls: Schedule, h: Handle)
    requires Runnable(Init(), ls) && OwnerOf(h) < 0
    ensures var s := Exec(Init(), ls);
            && s.closes[h] <= 1
            && (s.closer == Serving ==> s.closes[h] == 0)
            && (s.closer == Shut ==> s.closes[h] == 1)
    ensures (forall i :: 0 <= i < |ls| ==> !ByListener(ls[i])) ==> Exec(Init(), ls).closes[h] == 0
  {
    InitHolds();
    ExecKeepsInv(Init(), ls);
    assert Balanced(Exec(Init(), ls), h);
    MadeByListener(Init(), ls, h);
    if forall i :: 0 <= i < |ls| ==> !ByListener(ls[i]) { OnlyListenerCloses(Init(), ls, h); }
  }

  lemma {:induction false} MadeByListener(s: State, ls: Schedule, h: Handle)
    requires Runnable(s, ls) && OwnerOf(h) < 0 && h in s.made
    ensures h in Exec(s, ls).made
    decreases ls
  {
    if ls != [] { MadeByListener(Step(s, ls[0]), ls[1..], h); }
  }

  lemma {:induction false} OnlyListenerCloses(s: State, ls: Schedule, h: Handle)
    requires Inv(s) && Runnable(s, ls) && OwnerOf(h) < 0 && forall i :: 0 <= i < |ls| ==> !ByListener(ls[i])
    ensures Exec(s, ls).closes[h] == s.closes[h]
    decreases ls
  {
    if ls != [] {
      SharedStep(s, ls[0], h);
      StepKeepsInv(s, ls[0]);
      assert forall i :: 0 <= i < |ls[1..]| ==> ls[1..][i] == ls[i + 1];
      OnlyListenerCloses(Step(s, ls[0]), ls[1..], h);
    }
  }

  // ---------------------------------------------------------------- closing under open clients

  lemma Runs(s: State, l: Label, rest: Schedule)
    requires Enabled(s, l) && Runnable(Step(s, l), rest)
    ensures Runnable(s, [l] + rest) && Exec(s, [l] + rest) == Exec(Step(s, l), rest)
  {
    assert ([l] + rest)[1..] == rest;
  }

  /** The rest of the listener's Close closes what is left, and asks nobody. */
  lemma {:induction false} ListenerGoesOn(s: State) returns (ls: Schedule)
    requires s.closer.Shutting?
    ensures Runnable(s, ls)
    ensures Exec(s, ls) == s.(closer := Shut, closes := s.closes + multiset(s.closer.left))
    ensures forall l :: l in ls ==> l == ListenerNext
    decreases |s.closer.left|
  {
    var left := s.closer.left;
    if left == [] {
      ls := [ListenerNext];
    } else {
      var rest := ListenerGoesOn(ListenerOne(s));
      Runs(s, ListenerNext, rest);
      assert left == [left[0]] + left[1..];
      ls := [ListenerNext] + rest;
    }
  }

  lemma ListenerClosesFrom(s: State) returns (ls: Schedule)
    requires Inv(s) && s.closer == Serving && Domain in s.made && Fabric in s.made
    ensures Runnable(s, ls)
    ensures Exec(s, ls).closer == Shut && Exec(s, ls).clients == s.clients && Exec(s, ls).made == s.made
    ensures Exec(s, ls).closes[Domain] == 1 && Exec(s, ls).closes[Fabric] == 1
    ensures forall h :: OwnerOf(h) >= 0 ==> Exec(s, ls).closes[h] == s.closes[h]
    ensures forall l :: l in ls ==> l == CloseListener || l == ListenerNext
  {
    var u := Step(s, CloseListener);
    var rest := ListenerGoesOn(u);
    Runs(s, CloseListener, rest);
    ls := [CloseListener] + rest;
    assert Balanced(s, Domain) && Balanced(s, Fabric);
  }

  predicate IsOpen(s: State, c: ClientId) {
    c in s.clients && s.clients[c] == Accepted
    && forall h :: h in {EndpointOf(c), CqOf(c), EqOf(c)} ==> h in s.made && s.closes[h] == 0
  }

  /**
   The listener's Close does not wait for its clients: from every reachable state in which it has not been called it can
   run to its end without a step of anybody else, closing domain and fabric under every accepted client, which stays
   open with its own handles on them.
   */
  lemma ListenerClosesUnderClients(before: Schedule) returns (ls: Schedule)
    requires Runnable(Init(), before) && Exec(Init(), before).closer == Serving
    ensures var s := Exec(Init(), before);
            && Runnable(s, ls) && (forall l :: l in ls ==> l == CloseListener || l == ListenerNext)
            && var t := Exec(s, ls);
               && t.closer == Shut && t.closes[Domain] == 1 && t.closes[Fabric] == 1
               && forall c :: c in s.clients && s.clients[c] == Accepted ==> IsOpen(t, c)
  {
    var s := Exec(Init(), before);
    InitHolds();
    ExecKeepsInv(Init(), before);
    MadeByListener(Init(), before, Domain);
    MadeByListener(Init(), before, Fabric);
    ls := ListenerClosesFrom(s);
    forall c | c in s.clients && s.clients[c] == Accepted ensures IsOpen(Exec(s, ls), c) {
      AcceptedIsOpen(s, c);
    }
  }

  lemma AcceptedIsOpen(s: State, c: ClientId)
    requires Inv(s) && c in s.clients && s.clients[c] == Accepted
    ensures IsOpen(s, c)
  {
    forall h | h in {EndpointOf(c), CqOf(c), EqOf(c)} ensures h in s.made && s.closes[h] == 0 {
      assert Balanced(s, h);
    }
  }

  // ---------------------------------------------------------------- connections open and end

  /** A step of connection `c`: of its handshake, or of its client's Close. */
  predicate OfConnection(l: Label, c: ClientId) {
    match l
    case CloseListener => false
    case ListenerNext => false
    case _ => l.c == c
  }

  ghost predicate Goes(s: State, ls: Schedule, t: State, c: ClientId) {
    Runnable(s, ls) && Exec(s, ls) == t && forall i :: 0 <= i < |ls| ==> OfConnection(ls[i], c)
  }

  lemma First(s: State, l: Label, rest: Schedule, t: State, c: ClientId) returns (ls: Schedule)
    requires Enabled(s, l) && OfConnection(l, c) && Goes(Step(s, l), rest, t, c)
    ensures Goes(s, ls, t, c)
  {
    Runs(s, l, rest);
    ls := [l] + rest;
  }

  /** A handshake that has its first `n` handles. */
  function Opening(s: State, c: ClientId, made: set<Handle>, g: Stage): State {
    At(s.(made := s.made + made), c, g)
  }

  lemma HandshakeOpens(s: State, c: ClientId) returns (ls: Schedule)
    requires c !in s.clients
    ensures Goes(s, ls, Opening(s, c, {EndpointOf(c), CqOf(c), EqOf(c)}, Accepted), c)
  {
    var e, q, f := EndpointOf(c), CqOf(c), EqOf(c);
    var s1, s2 := Opening(s, c, {}, OpenedNone), Opening(s, c, {e}, OpenedEndpoint);
    var s3, s4 := Opening(s, c, {e, q}, OpenedCq), Opening(s, c, {e, q, f}, OpenedEq);
    var t := Opening(s, c, {e, q, f}, Accepted);
    assert Step(s, Request(c)) == s1 && Step(s1, Open(c)) == s2 && Step(s2, Open(c)) == s3 && Step(s3, Open(c)) == s4;
    ls := First(s4, Accept(c), [], t, c);
    ls := First(s3, Open(c), ls, t, c);
    ls := First(s2, Open(c), ls, t, c);
    ls := First(s1, Open(c), ls, t, c);
    ls := First(s, Request(c), ls, t, c);
  }

  /** A new connection can be accepted by the steps of its handshake alone, with three new handles. */
  lemma ConnectionCanOpen(before: Schedule, c: ClientId) returns (ls: Schedule, t: State)
    requires Runnable(Init(), before) && c !in Exec(Init(), before).clients
    ensures var s := Exec(Init(), before);
            Goes(s, ls, t, c) && t == s.(clients := s.clients[c := Accepted], made := t.made)
            && t.made == s.made + {EndpointOf(c), CqOf(c), EqOf(c)}
    ensures IsOpen(t, c)
  {
    var s := Exec(Init(), before);
    InitHolds();
    ExecKeepsInv(Init(), before);
    ls := HandshakeOpens(s, c);
    t := Opening(s, c, {EndpointOf(c), CqOf(c), EqOf(c)}, Accepted);
    forall h | h in {EndpointOf(c), CqOf(c), EqOf(c)} ensures t.closes[h] == 0 { assert Balanced(s, h); }
  }

  /** A Close or a failed exit that has begun closes what is left. */
  lemma {:induction false} LeavingEnds(s: State, c: ClientId) returns (ls: Schedule, t: State)
    requires c in s.clients && Leaving(s.clients[c])
    ensures Goes(s, ls, t, c)
    ensures t == s.(clients := s.clients[c := Gone], closes := s.closes + multiset(s.clients[c].left))
    decreases |s.clients[c].left|
  {
    var left := s.clients[c].left;
    if left == [] {
      t := At(s, c, Gone);
      ls := First(s, CloseNext(c), [], t, c);
    } else {
      var s1 := CloseOne(s, c);
      ls, t := LeavingEnds(s1, c);
      assert left == [left[0]] + left[1..];
      ls := First(s, CloseNext(c), ls, t, c);
    }
  }

  /**
   From every reachable state a connection can end by its own steps, by a failed exit of its handshake or by its
   client's Close, with every handle that was opened for it closed exactly once.
   */
  lemma ConnectionCanEnd(before: Schedule, c: ClientId) returns (ls: Schedule, t: State)
    requires Runnable(Init(), before) && c in Exec(Init(), before).clients
    ensures var s := Exec(Init(), before);
            Goes(s, ls, t, c) && t.clients == s.clients[c := Gone] && t.closer == s.closer && t.made == s.made
    ensures forall h :: OwnerOf(h) == c ==> t.closes[h] == if h in t.made then 1 else 0
  {
    var s := Exec(Init(), before);
    if s.clients[c] == Gone {
      ls, t := [], s;
    } else if Leaving(s.clients[c]) {
      ls, t := LeavingEnds(s, c);
    } else {
      var l := if s.clients[c] == Accepted then CloseClient(c) else FailSetup(c);
      ls, t := LeavingEnds(Step(s, l), c);
      ls := First(s, l, ls, t, c);
    }
    EndedIsBalanced(before, ls, t, c);
  }

  lemma EndedIsBalanced(before: Schedule, ls: Schedule, t: State, c: ClientId)
    requires Runnable(Init(), before) && Goes(Exec(Init(), before), ls, t, c)
    requires c in t.clients && t.clients[c] == Gone
    ensures forall h :: OwnerOf(h) == c ==> t.closes[h] == if h in t.made then 1 else 0
  {
    InitHolds();
    ExecKeepsInv(Init(), before);
    ExecKeepsInv(Exec(Init(), before), ls);
    forall h | OwnerOf(h) == c ensures t.closes[h] == if h in t.made then 1 else 0 {
      assert Balanced(t, h);
    }
  }
}
