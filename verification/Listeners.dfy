/** The MSG listener of client/listener.go, with the event queues and the clock as scripts. */
module Listeners {
  import opened Basics

  datatype EventType = ConnReq | Connected | Shutdown | Other

  /** The provider calls of an accepted connection before its handshake, in order. */
  datatype Step = OpenEndpoint | OpenCq | OpenEq | BindCq | BindEq | Enable | AcceptConnection

  datatype Error = Closed | Cancelled | Timeout | HandshakeClosed | Provider(errno: int) | SetupFailed(step: Step)

  /** A connection-management event; it holds provider memory until it is freed. */
  class ConnectionEvent {
    const kind: EventType
    var held: bool
    var frees: nat            // times the provider memory was freed

    constructor (kind: EventType)
      ensures this.kind == kind && held && frees == 0
    {
      this.kind, held, frees := kind, true, 0;
    }

    ghost predicate Fresh()
      reads this
    {
      held && frees == 0
    }

    ghost predicate FreedOnce()
      reads this
    {
      !held && frees == 1
    }

    /** A second call does nothing. */
    method Free()
      modifies this
      ensures !held && frees == old(frees) + (if old(held) then 1 else 0)
    {
      if held {
        frees := frees + 1;
        held := false;
      }
    }
  }

  /** A provider handle behind a Go wrapper; the wrapper drops it after the first close. */
  class Handle {
    var open: bool
    var closes: nat           // times the provider was asked to close it

    constructor ()
      ensures open && closes == 0
    {
      open, closes := true, 0;
    }

    method Close()
      modifies this
      ensures !open && closes == old(closes) + (if old(open) then 1 else 0)
    {
      if open {
        closes := closes + 1;
        open := false;
      }
    }

    ghost predicate Untouched()
      reads this
    {
      open && closes == 0
    }

    ghost predicate ClosedOnce()
      reads this
    {
      !open && closes == 1
    }
  }

  /** What one read of an event queue answers. */
  datatype Answer = NoEvent | Failure(errno: int) | Nil | Got(event: ConnectionEvent)

  /**
   One turn of a loop: whether the listener is closed, the caller's context is done, the deadline is past, and the
   answer.
   */
  datatype Turn = Turn(closed: bool, cancelled: bool, late: bool, answer: Answer)

  ghost function EventsOf(turns: seq<Turn>): set<ConnectionEvent> {
    set i | 0 <= i < |turns| && turns[i].answer.Got? :: turns[i].answer.event
  }

  /** All events of the script are different and not freed. */
  ghost predicate Unread(turns: seq<Turn>)
    reads EventsOf(turns)
  {
    && (forall i :: 0 <= i < |turns| && turns[i].answer.Got? ==> turns[i].answer.event.Fresh())
    && (forall i, j :: 0 <= i < j < |turns| && turns[i].answer.Got? && turns[j].answer.Got? ==>
          turns[i].answer.event != turns[j].answer.event)
  }

  /** The events read in the first `used` turns are freed exactly once, the others are as they were. */
  twostate predicate FreedUpTo(turns: seq<Turn>, used: nat)
    requires used <= |turns|
    reads EventsOf(turns)
  {
    && (forall i :: 0 <= i < used && turns[i].answer.Got? ==> turns[i].answer.event.FreedOnce())
    && (forall i :: used <= i < |turns| && turns[i].answer.Got? ==> unchanged(turns[i].answer.event))
  }

  // ---------------------------------------------------------------- waitForConnected

  /** What a turn of waitForConnected decides: nothing, success, or an error. */
  datatype Verdict = GoOn | Success | Fail(error: Error)

  /** The deadline and the context count before the read, so such a turn reads no event. */
  function Reads(t: Turn): bool {
    !t.cancelled && !t.late
  }

  function Judge(t: Turn): Verdict {
    if t.cancelled then Fail(Cancelled)
    else if t.late then Fail(Timeout)
    else
      match t.answer
      case NoEvent => GoOn
      case Failure(e) => Fail(Provider(e))
      case Nil => GoOn
      case Got(event) =>
        match event.kind
        case Connected => Success
        case Shutdown => Fail(HandshakeClosed)
        case _ => GoOn
  }

  /** The first turn that decides something, or the length of the script. */
  function Decisive(turns: seq<Turn>): (i: nat)
    ensures i <= |turns|
    ensures i < |turns| ==> Judge(turns[i]) != GoOn
    ensures forall j :: 0 <= j < i ==> Judge(turns[j]) == GoOn
  {
    if turns == [] || Judge(turns[0]) != GoOn then 0 else 1 + Decisive(turns[1..])
  }

  /** How many turns' events have been read when the loop ends. */
  function Consumed(turns: seq<Turn>): (n: nat)
    ensures n <= |turns|
  {
    var i := Decisive(turns);
    if i < |turns| && Reads(turns[i]) then i + 1 else i
  }

  /** Which calls of the setup the provider grants. */
  datatype Setup = Setup(endpoint: bool, cq: bool, eq: bool, bindCq: bool, bindEq: bool, enable: bool, accept: bool)

  /** The first call that the provider refuses. */
  function Refused(s: Setup): Option<Step> {
    if !s.endpoint then Some(OpenEndpoint)
    else if !s.cq then Some(OpenCq)
    else if !s.eq then Some(OpenEq)
    else if !s.bindCq then Some(BindCq)
    else if !s.bindEq then Some(BindEq)
    else if !s.enable then Some(Enable)
    else if !s.accept then Some(AcceptConnection)
    else None
  }

  /** How many handles the setup opens. */
  function Opened(s: Setup): nat {
    if !s.endpoint then 0 else if !s.cq then 1 else if !s.eq then 2 else 3
  }

  /** What a connection request comes to: the first refused call, or what decides the handshake. */
  function Answered(s: Setup, handshake: seq<Turn>): Option<Error>
    requires Decisive(handshake) < |handshake|
  {
    var verdict := Judge(handshake[Decisive(handshake)]);
    if Refused(s).Some? then Some(SetupFailed(Refused(s).value))
    else if verdict == Success then None
    else Some(verdict.error)
  }

  /** The turns that the connection consumes of its handshake: none if the setup fails before it. */
  function ShakeConsumed(s: Setup, handshake: seq<Turn>): (n: nat)
    ensures n <= |handshake|
  {
    if Refused(s).Some? then 0 else Consumed(handshake)
  }

  /**
   waitForConnected, until it decides or the script is over (None).  Every event it read is freed exactly once, on
   every exit, and no other is touched.
   */
  method WaitForConnected(turns: seq<Turn>) returns (r: Option<Verdict>)
    requires Unread(turns)
    modifies EventsOf(turns)
    ensures r == (if Decisive(turns) < |turns| then Some(Judge(turns[Decisive(turns)])) else None)
    ensures FreedUpTo(turns, Consumed(turns))
  {
    var i := 0;
    while i < |turns|
      invariant i <= |turns| && forall j :: 0 <= j < i ==> Judge(turns[j]) == GoOn
      invariant FreedUpTo(turns, i)
    {
      var turn := turns[i];
      if turn.cancelled {
        DecisiveIs(turns, i);
        return Some(Fail(Cancelled));
      }
      if turn.late {
        DecisiveIs(turns, i);
        return Some(Fail(Timeout));
      }
      if turn.answer.Failure? {
        DecisiveIs(turns, i);
        return Some(Fail(Provider(turn.answer.errno)));
      }
      if turn.answer.Got? {
        var kind := turn.answer.event.kind;
        turn.answer.event.Free();
        if kind == Connected {
          DecisiveIs(turns, i);
          return Some(Success);
        }
        if kind == Shutdown {
          DecisiveIs(turns, i);
          return Some(Fail(HandshakeClosed));
        }
      }
      i := i + 1;
    }
    DecisiveIs(turns, i);
    return None;
  }

  lemma DecisiveIs(turns: seq<Turn>, i: nat)
    requires i <= |turns| && (forall j :: 0 <= j < i ==> Judge(turns[j]) == GoOn)
    requires i < |turns| ==> Judge(turns[i]) != GoOn
    ensures Decisive(turns) == i
  {
  }

  /** A turn that would end the handshake without success. */
  predicate Spoils(t: Turn) {
    t.cancelled || t.late || t.answer.Failure? || (t.answer.Got? && t.answer.event.kind == Shutdown)
  }

  /** Turn `i` reads a Connected event, and nothing before it spoils the handshake. */
  predicate ConnectedAt(turns: seq<Turn>, i: nat) {
    && i < |turns| && Reads(turns[i]) && turns[i].answer.Got? && turns[i].answer.event.kind == Connected
    && forall j :: 0 <= j < i ==> !Spoils(turns[j])
  }

  lemma SuccessIsConnected(turns: seq<Turn>)
    requires Decisive(turns) < |turns| && Judge(turns[Decisive(turns)]) == Success
    ensures ConnectedAt(turns, Decisive(turns))
  {
    forall j | 0 <= j < Decisive(turns) ensures !Spoils(turns[j]) { assert Judge(turns[j]) == GoOn; }
  }

  lemma ConnectedIsSuccess(turns: seq<Turn>, i: nat)
    requires ConnectedAt(turns, i)
    ensures Decisive(turns) < |turns| && Judge(turns[Decisive(turns)]) == Success
  {
    var d := Decisive(turns);
    assert Judge(turns[i]) == Success;
    if d < i { assert !Spoils(turns[d]); }
  }

  /**
   The handshake succeeds exactly if a Connected event is read before any shutdown, timeout, cancellation or error.
   */
  lemma ConnectedFirst(turns: seq<Turn>)
    ensures Decisive(turns) < |turns| && Judge(turns[Decisive(turns)]) == Success <==>
              exists i: nat :: ConnectedAt(turns, i)
  {
    if Decisive(turns) < |turns| && Judge(turns[Decisive(turns)]) == Success { SuccessIsConnected(turns); }
    if i: nat :| ConnectedAt(turns, i) { ConnectedIsSuccess(turns, i); }
  }

  // ---------------------------------------------------------------- accepted clients

  /**
   The handles of a client: a dialled one owns them all, an accepted one shares fabric and domain with its listener.
   */
  class Client {
    const fabric: Handle
    const domain: Handle
    const endpoint: Handle
    const cq: Handle
    const eq: Handle
    const ownFabric: bool
    const ownDomain: bool
    var closed: bool

    constructor (fabric: Handle, domain: Handle, endpoint: Handle, cq: Handle, eq: Handle, ownFabric: bool,
                 ownDomain: bool)
      ensures this.fabric == fabric && this.domain == domain && this.endpoint == endpoint && this.cq == cq
              && this.eq == eq
      ensures this.ownFabric == ownFabric && this.ownDomain == ownDomain && !closed
    {
      this.fabric, this.domain, this.endpoint, this.cq, this.eq := fabric, domain, endpoint, cq, eq;
      this.ownFabric, this.ownDomain, closed := ownFabric, ownDomain, false;
    }

    ghost function Owned(): set<Handle> {
      {endpoint, cq, eq} + (if ownDomain then {domain} else {}) + (if ownFabric then {fabric} else {})
    }

    ghost predicate Valid()
      reads this, Owned()
    {
      && endpoint != cq && endpoint != eq && cq != eq && fabric != domain && {endpoint, cq, eq} !! {fabric, domain}
      && forall h :: h in Owned() ==> if closed then h.ClosedOnce() else h.Untouched()
    }

    /** Close: the first call closes exactly what the client owns, each once; a later one does nothing. */
    method Close()
      requires Valid()
      modifies this, Owned()
      ensures Valid() && closed
      ensures old(closed) ==> unchanged(this) && forall h :: h in Owned() ==> unchanged(h)
    {
      if closed {
        return;
      }
      closed := true;
      endpoint.Close();
      cq.Close();
      eq.Close();
      if ownDomain {
        domain.Close();
      }
      if ownFabric {
        fabric.Close();
      }
    }
  }

  ghost predicate AllClosed(made: set<Handle>)
    reads made
  {
    forall h :: h in made ==> h.ClosedOnce()
  }

  class Listener {
    const fabric: Handle
    const domain: Handle
    const pep: Handle
    const eq: Handle
    var closed: bool

    constructor (fabric: Handle, domain: Handle, pep: Handle, eq: Handle)
      ensures this.fabric == fabric && this.domain == domain && this.pep == pep && this.eq == eq && !closed
    {
      this.fabric, this.domain, this.pep, this.eq, closed := fabric, domain, pep, eq, false;
    }

    ghost predicate Distinct() {
      fabric != domain && fabric != pep && fabric != eq && domain != pep && domain != eq && pep != eq
    }

    ghost predicate Valid()
      reads this, fabric, domain, pep, eq
    {
      && Distinct()
      && (if closed then fabric.ClosedOnce() && domain.ClosedOnce() && pep.ClosedOnce() && eq.ClosedOnce()
          else fabric.Untouched() && domain.Untouched() && pep.Untouched() && eq.Untouched())
    }

    /** Close: the first call closes the passive endpoint, the queue, the domain and the fabric. */
    method Close()
      requires Valid()
      modifies this, fabric, domain, pep, eq
      ensures Valid() && closed
      ensures old(closed) ==> unchanged(this, fabric, domain, pep, eq)
    {
      if closed {
        return;
      }
      closed := true;
      pep.Close();
      eq.Close();
      domain.Close();
      fabric.Close();
    }

    /** A client of this listener, with the handles made for it still open. */
    ghost predicate Shares(client: Client, made: set<Handle>)
      reads client, client.Owned()
    {
      && client.Valid() && !client.closed && client.fabric == fabric && client.domain == domain
      && !client.ownFabric && !client.ownDomain && made == {client.endpoint, client.cq, client.eq}
    }

    /**
     handleConnReq: an accepted client with new handles, or nothing left open; the first call that the provider refuses
     or the handshake decides which.  The request is freed on every exit, and so is every event that the handshake read,
     which is none if the setup fails before it; the listener's own handles are not touched.
     */
    method HandleConnReq(evt: ConnectionEvent, setup: Setup, handshake: seq<Turn>)
        returns (client: Client?, err: Option<Error>, ghost made: set<Handle>)
      requires Decisive(handshake) < |handshake|
      requires Distinct() && evt.Fresh() && Unread(handshake) && evt !in EventsOf(handshake)
      modifies evt, EventsOf(handshake)
      ensures evt.FreedOnce() && (client == null <==> err.Some?)
      ensures err == Answered(setup, handshake)
      ensures FreedUpTo(handshake, ShakeConsumed(setup, handshake))
      ensures fresh(made) && |made| == Opened(setup)
      ensures client == null ==> AllClosed(made)
      ensures client != null ==> fresh(client) && Shares(client, made)
    {
      client := null;
      var endpoint, cq, eq;
      endpoint, cq, eq, err, made := OpenHandles(setup);
      if endpoint != null && cq != null && eq != null {
        err := Shake(endpoint, cq, eq, setup, handshake);
        if err == None {
          client := new Client(fabric, domain, endpoint, cq, eq, false, false);
        }
      }
      evt.Free();
    }

    /** Binding, enabling, accepting and the wait for the Connected event; a failure closes the three handles. */
    method Shake(endpoint: Handle, cq: Handle, eq: Handle, setup: Setup, handshake: seq<Turn>)
        returns (err: Option<Error>)
      requires endpoint != cq && endpoint != eq && cq != eq && Unread(handshake) && Decisive(handshake) < |handshake|
      requires endpoint.Untouched() && cq.Untouched() && eq.Untouched() && Opened(setup) == 3
      modifies endpoint, cq, eq, EventsOf(handshake)
      ensures err == Answered(setup, handshake) && FreedUpTo(handshake, ShakeConsumed(setup, handshake))
      ensures err == None ==> endpoint.Untouched() && cq.Untouched() && eq.Untouched()
      ensures err.Some? ==> endpoint.ClosedOnce() && cq.ClosedOnce() && eq.ClosedOnce()
    {
      if !setup.bindCq {
        err := Some(SetupFailed(BindCq));
      } else if !setup.bindEq {
        err := Some(SetupFailed(BindEq));
      } else if !setup.enable {
        err := Some(SetupFailed(Enable));
      } else if !setup.accept {
        err := Some(SetupFailed(AcceptConnection));
      } else {
        var verdict := WaitForConnected(handshake);
        err := if verdict.value == Success then None else Some(verdict.value.error);
      }
      if err.Some? {
        CloseThree(eq, cq, endpoint);
      }
    }

    method CloseThree(eq: Handle, cq: Handle, endpoint: Handle)
      requires endpoint != cq && endpoint != eq && cq != eq
      modifies eq, cq, endpoint
      ensures old(eq.Untouched()) ==> eq.ClosedOnce()
      ensures old(cq.Untouched()) ==> cq.ClosedOnce()
      ensures old(endpoint.Untouched()) ==> endpoint.ClosedOnce()
    {
      eq.Close();
      cq.Close();
      endpoint.Close();
    }

    /** Opens endpoint, completion queue and event queue; a failure closes what was opened before it. */
    method OpenHandles(setup: Setup)
        returns (endpoint: Handle?, cq: Handle?, eq: Handle?, err: Option<Error>, ghost made: set<Handle>)
      ensures fresh(made) && |made| == Opened(setup)
      ensures err.Some? <==> Opened(setup) < 3
      ensures err.Some? ==> err == Some(SetupFailed(Refused(setup).value))
      ensures err.Some? ==> endpoint == cq == eq == null && AllClosed(made)
      ensures err == None ==>
                && endpoint != null && cq != null && eq != null
                && endpoint != cq && endpoint != eq && cq != eq && made == {endpoint, cq, eq}
                && endpoint.Untouched() && cq.Untouched() && eq.Untouched()
    {
      if !setup.endpoint {
        return null, null, null, Some(SetupFailed(OpenEndpoint)), {};
      }
      var e := new Handle();
      if !setup.cq {
        e.Close();
        return null, null, null, Some(SetupFailed(OpenCq)), {e};
      }
      var c := new Handle();
      if !setup.eq {
        c.Close();
        e.Close();
        return null, null, null, Some(SetupFailed(OpenEq)), {e, c};
      }
      eq := new Handle();
      return e, c, eq, None, {e, c, eq};
    }

    // -------------------------------------------------------------- Accept

    /**
     Accept, until it decides or the script is over.  It handles the first connection request and no other event;
     every event it read, of its own queue and of the handshake, is freed exactly once, and no other, on every exit.
     */
    method Accept(turns: seq<Turn>, setup: Setup, handshake: seq<Turn>)
        returns (client: Client?, err: Option<Error>, ghost made: set<Handle>)
      requires Decisive(handshake) < |handshake|
      requires Distinct() && Unread(turns) && Unread(handshake) && EventsOf(turns) !! EventsOf(handshake)
      modifies EventsOf(turns), EventsOf(handshake)
      ensures FreedUpTo(turns, AcceptConsumed(turns))
      ensures fresh(made) && (client == null ==> AllClosed(made))
      ensures client != null ==> fresh(client) && Shares(client, made)
      ensures var i := FirstStop(turns);
              if i < |turns| && Request(turns[i]) then
                && (client == null <==> err.Some?) && err == Answered(setup, handshake)
                && |made| == Opened(setup) && FreedUpTo(handshake, ShakeConsumed(setup, handshake))
              else client == null && made == {} && FreedUpTo(handshake, 0)
      ensures var i := FirstStop(turns);
              i < |turns| && !Request(turns[i]) ==>
                err == Some(if turns[i].closed then Closed else if turns[i].cancelled then Cancelled
                            else Provider(turns[i].answer.errno))
      ensures FirstStop(turns) == |turns| ==> err == None
    {
      var i := SkipOthers(turns);
      if i == |turns| {
        return null, None, {};
      }
      if turns[i].closed {
        return null, Some(Closed), {};
      }
      if turns[i].cancelled {
        return null, Some(Cancelled), {};
      }
      if turns[i].answer.Failure? {
        return null, Some(Provider(turns[i].answer.errno)), {};
      }
      assert turns[i].answer.event !in EventsOf(handshake);
      client, err, made := HandleConnReq(turns[i].answer.event, setup, handshake);
    }

    /** The loop of Accept up to the turn that ends it: other events are freed, no event and nil are passed over. */
    method SkipOthers(turns: seq<Turn>) returns (i: nat)
      requires Unread(turns)
      modifies EventsOf(turns)
      ensures i == FirstStop(turns) && FreedUpTo(turns, i)
    {
      i := 0;
      while i < |turns| && !turns[i].closed && !turns[i].cancelled && !turns[i].answer.Failure?
            && !(turns[i].answer.Got? && turns[i].answer.event.kind == ConnReq)
        invariant i <= |turns| && forall j :: 0 <= j < i ==> !Stops(turns[j])
        invariant FreedUpTo(turns, i)
      {
        if turns[i].answer.Got? {
          turns[i].answer.event.Free();
        }
        i := i + 1;
      }
      FirstStopIs(turns, i);
    }
  }

  // ---------------------------------------------------------------- what Accept looks for

  /** A connection request that Accept gets to see. */
  predicate Request(t: Turn) {
    !t.closed && !t.cancelled && t.answer.Got? && t.answer.event.kind == ConnReq
  }

  predicate Stops(t: Turn) {
    t.closed || t.cancelled || t.answer.Failure? || Request(t)
  }

  function FirstStop(turns: seq<Turn>): (i: nat)
    ensures i <= |turns|
    ensures i < |turns| ==> Stops(turns[i])
    ensures forall j :: 0 <= j < i ==> !Stops(turns[j])
  {
    if turns == [] || Stops(turns[0]) then 0 else 1 + FirstStop(turns[1..])
  }

  function AcceptConsumed(turns: seq<Turn>): (n: nat)
    ensures n <= |turns|
  {
    var i := FirstStop(turns);
    if i < |turns| && Request(turns[i]) then i + 1 else i
  }

  lemma FirstStopIs(turns: seq<Turn>, i: nat)
    requires i <= |turns| && (forall j :: 0 <= j < i ==> !Stops(turns[j]))
    requires i < |turns| ==> Stops(turns[i])
    ensures FirstStop(turns) == i
  {
  }
}
