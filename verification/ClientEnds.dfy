/**
 From every reachable state of the client: calls can return, requests that are served can settle their futures, and
 Close can return.
 */
module ClientEnds {
  import opened Basics
  import C = ContextProtocol
  import P = PoolProtocol
  import opened ClientProtocol
  import opened ClientInvariant
  import opened ClientPreservation
  import opened ClientTheorems
  import opened ClientSteps
  import opened ClientProgress
  import opened ClientCalls
  import opened ClientChoices
  import opened ClientShutdown

  /** `s` is where the run `ls` of a freshly dialled client has come to. */
  ghost predicate Reaches(s0: State, ls: Schedule, s: State) {
    Start(s0) && End(s0, ls) == Some(s)
  }

  lemma ReachedIsSound(s0: State, ls: Schedule, s: State)
    requires Reaches(s0, ls, s)
    ensures Inv(s)
  {
    RunKeepsInv(s0, ls);
  }

  lemma ReachesOn(s0: State, ls: Schedule, s: State, more: Schedule, t: State)
    requires Reaches(s0, ls, s) && End(s, more) == Some(t)
    ensures Reaches(s0, ls + more, t)
  {
    EndOfBoth(s0, ls, s, more);
  }

  // ---------------------------------------------------------------- completions

  /**
   From every reachable state in which a completion has begun, by the dispatcher or by the sender of an injected
   message: some run of its own steps closes `done` with the result that was stored, whether or not there is a region to
   release.
   */
  lemma StoredCompletionSettles(s0: State, ls: Schedule, s: State, k: CallId) returns (more: Schedule, t: State)
    requires Reaches(s0, ls, s) && Completer(s, k) && Underway(s.calls[k].op)
    ensures Goes(s, more, t, k) && Reaches(s0, ls + more, t)
    ensures k in t.calls && t.calls[k] == s.calls[k].(op := Done(s.calls[k].op.failed))
    ensures t.disp == if s.disp == Completing(k) then Polling else s.disp
  {
    ReachedIsSound(s0, ls, s);
    more, t := CompletionFinishes(s, k);
    ReachesOn(s0, ls, s, more, t);
  }

  /**
   From every reachable state in which the dispatcher polls and an attached request has its entry in the queue: some run
   of the dispatcher's steps settles the future, with an error exactly if the entry is one.  A receive without region
   then shows the message in the caller's slice.
   */
  lemma ServedCallSettles(s0: State, ls: Schedule, s: State, k: CallId, failed: bool)
      returns (more: Schedule, t: State)
    requires Reaches(s0, ls, s) && s.disp == Polling && At(s, k, Returned) && InFlight(s, k)
    requires failed || ServedBy(s, k)
    ensures Goes(s, more, t, k) && Reaches(s0, ls + more, t) && t.disp == Polling
    ensures k in t.calls && t.calls[k] == Resulting(s.calls[k], failed).(op := Done(failed))
    ensures !failed && s.calls[k].kind == Receive && s.calls[k].region == None ==> Filled(t, k, s.calls[k].got)
  {
    ReachedIsSound(s0, ls, s);
    more, t := EntryFinishes(s, k, failed);
    ReachesOn(s0, ls, s, more, t);
    if !failed && s.calls[k].kind == Receive && s.calls[k].region == None {
      assert CallOk(ViewOf(t, k));
      CompletedReceiveShows(ViewOf(t, k));
    }
  }

  /** The caller's slice of a receive begins with the message. */
  predicate Filled(s: State, k: CallId, msg: Option<seq<Byte>>) {
    k in s.cx.ctxs && s.cx.ctxs[k].sink.Some? && msg.Some? && Carries(s.cx.ctxs[k].sink.value, msg.value)
  }

  // ---------------------------------------------------------------- the provider

  lemma FlightView(v: View)
    requires CallOk(v) && Live(v) && v.ctx.value.entry == C.Absent
    ensures v.ctx.value.stage == C.Open && v.call.op == Pending && !v.call.dropped && v.role == NoRole
    ensures v.call.kind == Send ==> Source(v) == Some(v.call.payload)
    ensures v.call.kind == Receive && v.call.region == None ==> v.staged.Some? && |v.call.payload| <= |v.staged.value|
    ensures v.call.region.Some? ==>
              v.point == Some(P.Using(v.call.region.value)) && v.held.Some? && |v.call.payload| <= |v.held.value|
  {
    assert CtxPart(v) && RegionPart(v) && StagingPart(v) && OpPart(v) && DataPart(v);
  }

  /** While a request is in flight the provider can read the payload of a send, or place a message that fits. */
  lemma ProviderServes(s: State, k: CallId, msg: seq<Byte>) returns (l: NetStep, t: State)
    requires Inv(s) && k in s.calls && InFlight(s, k) && !ServedBy(s, k) && |msg| <= |s.calls[k].payload|
    ensures Leads(s, Net(l), t) && Inv(t) && InFlight(t, k) && k in t.calls && ServedBy(t, k)
    ensures t.disp == s.disp && t.closer == s.closer
    ensures t.calls[k] == if s.calls[k].kind == Send then s.calls[k] else s.calls[k].(got := Some(msg), from := None)
  {
    assert CallOk(ViewOf(s, k));
    FlightView(ViewOf(s, k));
    if s.calls[k].kind == Send {
      l := Capture(k);
      t := CaptureStep(s, k);
    } else {
      l := Deliver(k, msg, None);
      t := DeliverStep(s, k, msg);
    }
  }

  lemma CaptureStep(s: State, k: CallId) returns (t: State)
    requires Inv(s) && CanNet(s, Capture(k))
    ensures Leads(s, Net(Capture(k)), t) && Inv(t) && t.calls == s.calls && t.cx == s.cx
    ensures t.disp == s.disp && t.closer == s.closer && k in t.wire
  {
    t := DoCapture(s, k);
    CaptureKeeps(s, k);
  }

  lemma DeliverStep(s: State, k: CallId, msg: seq<Byte>) returns (t: State)
    requires Inv(s) && CanNet(s, Deliver(k, msg, None))
    ensures Leads(s, Net(Deliver(k, msg, None)), t) && Inv(t) && InFlight(t, k)
    ensures t.calls == s.calls[k := s.calls[k].(got := Some(msg), from := None)]
    ensures t.disp == s.disp && t.closer == s.closer
  {
    t := DoDeliver(s, k, msg, None);
    NetKeeps(s, Deliver(k, msg, None));
  }

  // ---------------------------------------------------------------- requests

  lemma Enters(s: State, kind: Kind, payload: seq<Byte>) returns (k: CallId, t: State)
    requires Inv(s) && |payload| > 0 && !s.closed && s.err == None
    ensures k !in s.calls && Leads(s, Prepare(Begin(k, kind, payload)), t) && Inv(t)
    ensures t == s.(calls := s.calls[k := NewCall(kind, payload)]) && !t.pl.closed
  {
    k := Beyond(s.calls.Keys);
    t := Set(s, k, NewCall(kind, payload));
    BeginKeeps(s, k, kind, payload);
    PrepareLeads(s, Begin(k, kind, payload), t);
    assert CloserOk(s);
  }

  /** A step in front of a run. */
  lemma Ahead(s: State, l: Label, t: State, ls: Schedule, u: State)
    requires Leads(s, l, t) && End(t, ls) == Some(u)
    ensures End(s, [l] + ls) == Some(u)
  {
    assert ([l] + ls)[1..] == ls;
  }

  lemma RequestBuilt(s: State, kind: Kind, payload: seq<Byte>) returns (k: CallId, ls: Schedule, t: State)
    requires Inv(s) && |payload| > 0 && !s.closed && s.err == None
    ensures k !in s.calls && End(s, ls) == Some(t) && Inv(t) && t.disp == s.disp && At(t, k, Ready)
    ensures t.calls[k] == NewCall(kind, payload).(pc := Ready, region := t.calls[k].region)
    ensures t.calls[k].region.Some? <==> UsesRegion(s, |payload|)
  {
    var s1;
    k, s1 := Enters(s, kind, payload);
    ls, t := EnteredReady(s1, k);
    Ahead(s, Prepare(Begin(k, kind, payload)), s1, ls, t);
    ls := [Prepare(Begin(k, kind, payload))] + ls;
  }

  lemma RequestPosts(s: State, kind: Kind, payload: seq<Byte>) returns (k: CallId, ls: Schedule, t: State)
    requires Inv(s) && |payload| > 0 && !s.closed && s.err == None
    ensures k !in s.calls && End(s, ls) == Some(t) && Inv(t) && t.disp == s.disp && At(t, k, Returned) && InFlight(t, k)
    ensures t.calls[k] == NewCall(kind, payload).(pc := Returned, region := t.calls[k].region)
    ensures t.calls[k].region.Some? <==> UsesRegion(s, |payload|)
  {
    var s1, more;
    k, ls, s1 := RequestBuilt(s, kind, payload);
    more, t := ReadyPosts(s1, k);
    EndOfBoth(s, ls, s1, more);
    ls := ls + more;
  }

  /** A request that is served: a send whose payload is read, or a receive that is given `msg`. */
  lemma RequestServed(s: State, kind: Kind, payload: seq<Byte>, msg: seq<Byte>)
      returns (k: CallId, ls: Schedule, t: State)
    requires Inv(s) && |payload| > 0 && !s.closed && s.err == None && |msg| <= |payload|
    ensures k !in s.calls && End(s, ls) == Some(t) && Inv(t) && t.disp == s.disp && At(t, k, Returned) && InFlight(t, k)
    ensures ServedBy(t, k)
    ensures t.calls[k] == NewCall(kind, payload).(pc := Returned, region := t.calls[k].region,
                                                  got := if kind == Send then None else Some(msg))
    ensures t.calls[k].region.Some? <==> UsesRegion(s, |payload|)
  {
    var s1;
    k, ls, s1 := RequestPosts(s, kind, payload);
    if ServedBy(s1, k) {
      t := s1;
      return;
    }
    var l;
    l, t := ProviderServes(s1, k, msg);
    Ahead(s1, Net(l), t, [], t);
    EndOfBoth(s, ls, s1, [Net(l)] + []);
    ls := ls + ([Net(l)] + []);
  }

  /**
   From every reachable state of an open client without a recorded error whose dispatcher polls: a new send or receive
   of any non-empty slice, pooled, registered or staged, can run to a settled future without error; the provider then
   has the payload of the send, and the slice of the receive shows the message unless a region took it.
   */
  lemma RequestCanSettle(s0: State, ls: Schedule, s: State, kind: Kind, payload: seq<Byte>, msg: seq<Byte>)
      returns (k: CallId, more: Schedule, t: State)
    requires Reaches(s0, ls, s) && s.disp == Polling && !s.closed && s.err == None
    requires |payload| > 0 && |msg| <= |payload|
    ensures k !in s.calls && Reaches(s0, ls + more, t) && t.disp == Polling && k in t.calls
    ensures t.calls[k].kind == kind && t.calls[k].payload == payload && t.calls[k].pc == Returned
    ensures t.calls[k].op == Done(false) && t.calls[k].length == Some(|payload|)
    ensures kind == Send ==> k in t.wire && t.wire[k] == payload
    ensures kind == Receive ==>
              && t.calls[k].got == Some(msg)
              && (if UsesRegion(s, |payload|) then k in t.cx.ctxs && t.cx.ctxs[k].sink == Some(payload)
                  else Filled(t, k, Some(msg)))
  {
    ReachedIsSound(s0, ls, s);
    var s1, rest;
    k, more, s1 := RequestServed(s, kind, payload, msg);
    ReachesOn(s0, ls, s, more, s1);
    rest, t := ServedCallSettles(s0, ls + more, s1, k, false);
    assert ls + more + rest == ls + (more + rest);
    more := more + rest;
    if kind == Send {
      SentIsThere(s0, ls + more, t, k);
    } else if UsesRegion(s, |payload|) {
      RegionReceiveDoesNotFill(s0, ls + more, k);
    }
  }

  lemma SentIsThere(s0: State, ls: Schedule, t: State, k: CallId)
    requires Reaches(s0, ls, t) && k in t.calls && t.calls[k].kind == Send
    requires t.calls[k].op == Done(false) || t.calls[k].pc == InjectReturned
    ensures k in t.wire && t.wire[k] == t.calls[k].payload
  {
    ReachedIsSound(s0, ls, t);
    assert CallOk(ViewOf(t, k));
    SentView(ViewOf(t, k));
  }

  lemma SentView(v: View)
    requires CallOk(v) && v.call.kind == Send && (v.call.op == Done(false) || v.call.pc == InjectReturned)
    ensures v.sent == Some(v.call.payload)
  {
    assert DataPart(v) && OpPart(v);
  }

  lemma ReadyInjects(s: State, k: CallId) returns (ls: Schedule, t: State)
    requires Inv(s) && At(s, k, Ready) && s.calls[k].kind == Send && |s.calls[k].payload| <= s.injectLimit
    ensures Goes(s, ls, t, k) && WentByInject(s, t, k)
  {
    var a, s1 := MintStep(s, k);
    var s2 := StoreContext(s1, k);
    ls, t := RegisteredInjects(s2, k);
    ls := FirstToInjected(s1, Post(Store(k)), s2, ls, t, k, Registered);
    ls := FirstToInjected(s, Post(Mint(k, a)), s1, ls, t, k, Minting);
  }

  /** The same for a send that is short enough to be injected; the dispatcher has no part in it. */
  lemma InjectCanSettle(s0: State, ls: Schedule, s: State, payload: seq<Byte>)
      returns (k: CallId, more: Schedule, t: State)
    requires Reaches(s0, ls, s) && !s.closed && s.err == None && 0 < |payload| <= s.injectLimit
    ensures k !in s.calls && Reaches(s0, ls + more, t) && t.disp == s.disp && k in t.calls
    ensures t.calls[k].kind == Send && t.calls[k].payload == payload && t.calls[k].pc == InjectReturned
    ensures t.calls[k].op == Done(false) && t.calls[k].length == Some(|payload|)
    ensures k in t.wire && t.wire[k] == payload
  {
    ReachedIsSound(s0, ls, s);
    var s1, rest;
    k, more, s1 := RequestBuilt(s, Send, payload);
    RunKeepsConfig(s, more);
    rest, t := ReadyInjects(s1, k);
    EndOfBoth(s, more, s1, rest);
    more := more + rest;
    ReachesOn(s0, ls, s, more, t);
    SentIsThere(s0, ls + more, t, k);
  }

  lemma ScribbleStep(s: State, k: CallId, data: seq<Byte>) returns (t: State)
    requires Inv(s) && At(s, k, Returned) && s.calls[k].kind == Send
    ensures Leads(s, Net(Scribble(k, data)), t) && Inv(t) && t.cx == s.cx && t.wire == s.wire
    ensures t.calls == s.calls[k := s.calls[k].(user := data)]
  {
    t := Set(s, k, s.calls[k].(user := data));
    ScribbleKeeps(s, k, data);
  }

  /**
   A sender may overwrite its slice as soon as the call has returned: from every reachable state with a send in flight
   that the provider has not read yet, with any new bytes in the slice, the provider can still read it, and gets the
   payload.
   */
  lemma OverwrittenSendIsServed(s0: State, ls: Schedule, s: State, k: CallId, data: seq<Byte>)
      returns (more: Schedule, t: State)
    requires Reaches(s0, ls, s) && At(s, k, Returned) && s.calls[k].kind == Send && InFlight(s, k) && k !in s.wire
    ensures Reaches(s0, ls + more, t) && k in t.calls && t.calls[k] == s.calls[k].(user := data)
    ensures k in t.wire && t.wire[k] == s.calls[k].payload
  {
    ReachedIsSound(s0, ls, s);
    var s1 := ScribbleStep(s, k, data);
    var l;
    l, t := ProviderServes(s1, k, []);
    Ahead(s1, Net(l), t, [], t);
    Ahead(s, Net(Scribble(k, data)), s1, [Net(l)] + [], t);
    more := [Net(Scribble(k, data))] + ([Net(l)] + []);
    ReachesOn(s0, ls, s, more, t);
    ProviderGetsThePayload(s0, ls + more, k);
  }

  // ---------------------------------------------------------------- a recorded error

  predicate Begins(l: Label) {
    l.Prepare? && l.prepare.Begin?
  }

  lemma {:induction false} NothingBegins(s: State, ls: Schedule)
    requires s.err.Some? && Runnable(s, ls)
    ensures forall i :: 0 <= i < |ls| ==> !Begins(ls[i])
    decreases |ls|
  {
    if ls != [] {
      StepError(s, ls[0]);
      NothingBegins(Step(s, ls[0]), ls[1..]);
      assert forall i :: 0 < i < |ls| ==> ls[i] == ls[1..][i - 1];
    }
  }

  /**
   From every reachable state in which it polls, the dispatcher can record an error of its own; from then on, whatever
   happens, no call gets past its first checks any more.
   */
  lemma ErrorEndsPosting(s0: State, ls: Schedule, s: State, e: nat, more: Schedule) returns (t: State)
    requires Reaches(s0, ls, s) && s.disp == Polling
    ensures Leads(s, Dispatch(RecordError(e)), t) && t.err == if s.err == None then Some(e) else s.err
    ensures Runnable(t, more) ==> forall i :: 0 <= i < |more| ==> !Begins(more[i])
  {
    t := if s.err == None then s.(err := Some(e)) else s;
    DispatchLeads(s, RecordError(e), t);
    if Runnable(t, more) { NothingBegins(t, more); }
  }

  // ---------------------------------------------------------------- calls return

  predicate HasReturned(pc: Pc) {
    pc == Returned || pc == InjectReturned || pc == ClientProtocol.Failed
  }

  /** The request is built, or being built with a region. */
  lemma PreparingReturns(s: State, k: CallId) returns (ls: Schedule, t: State)
    requires Inv(s) && (At(s, k, Admitting) || At(s, k, Filling))
    ensures Goes(s, ls, t, k) && Inv(t) && At(t, k, Returned)
  {
    var s1, more;
    if s.calls[k].pc == Admitting { ls, s1 := AdmittingReady(s, k); } else { ls, s1 := FillingReady(s, k); }
    more, t := ReadyPosts(s1, k);
    Both(s, ls, s1, more, t, k);
    ls := ls + more;
  }

  lemma PostingReturns(s: State, k: CallId) returns (ls: Schedule, t: State)
    requires Inv(s) && k in s.calls && s.calls[k].pc in {Ready, Minting, Registered, Buffered, ClientProtocol.Staged}
    ensures Goes(s, ls, t, k) && Inv(t) && At(t, k, Returned)
  {
    match s.calls[k].pc
    case Ready => ls, t := ReadyPosts(s, k);
    case Minting => ls, t := MintingPosts(s, k);
    case Registered => ls, t := RegisteredPosts(s, k);
    case Buffered => ls, t := BufferedPosts(s, k);
    case _ => ls, t := StagedPosts(s, k);
  }

  lemma AttachStep(s: State, k: CallId) returns (t: State)
    requires Inv(s) && At(s, k, Counted)
    ensures Leads(s, Post(Attach(k)), t) && Inv(t) && At(t, k, Returned)
  {
    t := Go(s, k, Returned);
    PostKeeps(s, Attach(k));
    PostLeads(s, Attach(k), t);
  }

  lemma AcceptedReturns(s: State, k: CallId) returns (ls: Schedule, t: State)
    requires Inv(s) && (At(s, k, Accepted) || At(s, k, Counted))
    ensures Goes(s, ls, t, k) && Inv(t) && At(t, k, Returned)
  {
    var s1 := s;
    if s.calls[k].pc == Accepted { s1 := CountStep(s, k); }
    t := AttachStep(s1, k);
    Stays(t, k);
    ls := First(s1, Post(Attach(k)), t, [], t, k);
    if s.calls[k].pc == Accepted { ls := First(s, Post(Count(k)), s1, ls, t, k); }
  }

  lemma InjectView(v: View)
    requires CallOk(v) && (v.call.pc == Injected || v.call.pc == InjectUndoing || v.call.pc == Undoing)
    ensures v.ctx.Some? && (v.call.pc != Injected ==> v.ctx.value.winner == C.Releaser)
  {
    assert CtxPart(v);
  }

  /** A context that Release has swapped is at least claimed. */
  lemma UndoingReleases(s: State, k: CallId)
    requires Inv(s) && (At(s, k, InjectUndoing) || At(s, k, Undoing))
    ensures Releaser(s, k)
  {
    assert CallOk(ViewOf(s, k));
    InjectView(ViewOf(s, k));
    assert C.FieldsOk(s.cx.ctxs[k]);
  }

  lemma InjectingReturns(s: State, k: CallId) returns (ls: Schedule, t: State)
    requires Inv(s) && k in s.calls && s.calls[k].pc in {Injected, InjectUndoing, InjectPosted, InjectCounted}
    ensures Goes(s, ls, t, k) && Inv(t) && At(t, k, InjectReturned)
  {
    assert CallOk(ViewOf(s, k));
    match s.calls[k].pc
    case Injected =>
      InjectView(ViewOf(s, k));
      ls, t := InjectedReturns(s, k);
    case InjectUndoing =>
      UndoingReleases(s, k);
      ls, t := InjectUndoingReturns(s, k);
    case InjectPosted => ls, t := InjectPostedReturns(s, k);
    case _ => ls, t := InjectCountedReturns(s, k);
  }

  lemma ErrorReturns(s: State, k: CallId) returns (ls: Schedule, t: State)
    requires Inv(s) && k in s.calls && s.calls[k].pc in {Entered, Failing, Undoing, GivingBack}
    ensures Goes(s, ls, t, k) && Inv(t) && At(t, k, ClientProtocol.Failed)
  {
    match s.calls[k].pc
    case Entered => ls, t := CallFails(s, k);
    case Failing => ls, t := FailingFails(s, k);
    case Undoing =>
      UndoingReleases(s, k);
      ls, t := UndoingFails(s, k);
    case _ => ls, t := GivingBackFails(s, k);
  }

  /**
   No call ever waits for anybody: from every reachable state some run of its own steps alone, whatever the dispatcher,
   the provider, the closers and the other calls do or do not do, makes it return its future or an error.
   */
  lemma CallReturns(s0: State, ls: Schedule, s: State, k: CallId) returns (more: Schedule, t: State)
    requires Reaches(s0, ls, s) && k in s.calls
    ensures Goes(s, more, t, k) && Reaches(s0, ls + more, t) && k in t.calls && HasReturned(t.calls[k].pc)
  {
    ReachedIsSound(s0, ls, s);
    var pc := s.calls[k].pc;
    if HasReturned(pc) {
      Stays(s, k);
      more, t := [], s;
    } else if pc == Admitting || pc == Filling {
      more, t := PreparingReturns(s, k);
    } else if pc in {Ready, Minting, Registered, Buffered, ClientProtocol.Staged} {
      more, t := PostingReturns(s, k);
    } else if pc == Accepted || pc == Counted {
      more, t := AcceptedReturns(s, k);
    } else if pc in {Injected, InjectUndoing, InjectPosted, InjectCounted} {
      more, t := InjectingReturns(s, k);
    } else {
      more, t := ErrorReturns(s, k);
    }
    ReachesOn(s0, ls, s, more, t);
  }

  /** In Acquire the registration of a new region can fail. */
  lemma ProvisioningFails(s: State, k: CallId) returns (ls: Schedule, t: State)
    requires Inv(s) && At(s, k, Admitting) && PointOf(s.pl, k) == Some(P.Provisioning)
    ensures Goes(s, ls, t, k) && GaveUp(s, t, k)
  {
    var s1 := Go(Pool(s, P.ProvisionFails(k)), k, Failing);
    ProvisionFailsKeeps(s, k);
    PrepareLeads(s, ProvisionFails(k), s1);
    ls, t := FailingFails(s1, k);
    ls := FirstToFailed(s, Prepare(ProvisionFails(k)), s1, ls, t, k, Failing);
  }

  /**
   And where the code can meet an error, before the request, in the registration of a pooled region, before the context,
   before the staging buffer or at the provider, the call can return one, with nothing else changed for anybody.
   */
  lemma CallCanFail(s0: State, ls: Schedule, s: State, k: CallId) returns (more: Schedule, t: State)
    requires Reaches(s0, ls, s)
    requires || At(s, k, Entered) || At(s, k, Ready) || At(s, k, Registered) || At(s, k, ClientProtocol.Staged)
             || (At(s, k, Admitting) && PointOf(s.pl, k) == Some(P.Provisioning))
    ensures Goes(s, more, t, k) && Reaches(s0, ls + more, t)
    ensures t.calls == s.calls[k := s.calls[k].(pc := ClientProtocol.Failed)]
  {
    ReachedIsSound(s0, ls, s);
    if s.calls[k].pc == Admitting { more, t := ProvisioningFails(s, k); } else { more, t := CallFails(s, k); }
    ReachesOn(s0, ls, s, more, t);
  }

  // ---------------------------------------------------------------- Close returns

  /** A step of the closer, of the dispatcher's exit, or of the dispatcher at work on `k`. */
  predicate Closing(l: Label, k: CallId) {
    l.Shut? || l == Dispatch(Exit) || Own(l, k)
  }

  ghost predicate Closes(s: State, ls: Schedule, t: State, k: CallId) {
    End(s, ls) == Some(t) && t.closer == Over && forall i :: 0 <= i < |ls| ==> Closing(ls[i], k)
  }

  lemma FirstToClosed(s: State, l: Label, t: State, rest: Schedule, u: State, k: CallId) returns (ls: Schedule)
    requires Leads(s, l, t) && Closing(l, k) && Closes(t, rest, u, k)
    ensures Closes(s, ls, u, k)
  {
    Ahead(s, l, t, rest, u);
    ls := [l] + rest;
  }

  function DrainLeft(s: P.State): nat {
    match s.drain
    case Holding(_) => 2 * |s.chan| + 2
    case Taking => 2 * |s.chan| + 1
    case _ => 0
  }

  /** A step of the drain, as long as it is not over. */
  lemma DrainGoesOn(s: P.State) returns (p: P.Label)
    requires P.Inv(s) && s.closed && s.drain != P.Over
    ensures (p == P.DrainTake || p.DrainClose? || p == P.DrainEnd) && P.Enabled(s, p)
    ensures DrainLeft(P.Step(s, p)) < DrainLeft(s)
  {
    p := if s.drain.Holding? then P.DrainClose(true) else if s.chan != [] then P.DrainTake else P.DrainEnd;
  }

  lemma DrainStepOn(s: State) returns (p: P.Label, t: State)
    requires Inv(s) && s.closer == Draining && s.pl.drain != P.Over
    ensures Leads(s, Shut(DrainStep(p)), t) && Inv(t) && t.closer == Draining && DrainLeft(t.pl) < DrainLeft(s.pl)
  {
    p := DrainGoesOn(s.pl);
    t := Pool(s, p);
    DrainStepKeeps(s, p);
    ShutLeads(s, DrainStep(p), t);
  }

  lemma DrainingCloses(s: State, k: CallId) returns (ls: Schedule, t: State)
    requires Inv(s) && s.closer == Draining
    ensures Closes(s, ls, t, k) && Inv(t)
    decreases DrainLeft(s.pl)
  {
    if s.pl.drain == P.Over {
      t := s.(closer := Over, handlesClosed := true);
      ShutKeeps(s, CloseHandles);
      ShutLeads(s, CloseHandles, t);
      ls := FirstToClosed(s, Shut(CloseHandles), t, [], t, k);
      return;
    }
    var p, s1 := DrainStepOn(s);
    ls, t := DrainingCloses(s1, k);
    ls := FirstToClosed(s, Shut(DrainStep(p)), s1, ls, t, k);
  }

  lemma TearingCloses(s: State, k: CallId) returns (ls: Schedule, t: State)
    requires Inv(s) && s.closer == Tearing
    ensures Closes(s, ls, t, k) && Inv(t)
  {
    assert CloserOk(s);
    var s1 := Pool(s, P.ClosePool).(closer := Draining);
    ClosePoolKeeps(s);
    ShutLeads(s, ClosePool, s1);
    ls, t := DrainingCloses(s1, k);
    ls := FirstToClosed(s, Shut(ClosePool), s1, ls, t, k);
  }

  lemma ExitedCloses(s: State, k: CallId) returns (ls: Schedule, t: State)
    requires Inv(s) && s.closer == Stopping && s.disp == Exited
    ensures Closes(s, ls, t, k) && Inv(t)
  {
    var s1 := s.(closer := Tearing, teardowns := s.teardowns + 1);
    ShutKeeps(s, CloseWait);
    ShutLeads(s, CloseWait, s1);
    ls, t := TearingCloses(s1, k);
    ls := FirstToClosed(s, Shut(CloseWait), s1, ls, t, k);
  }

  lemma PollingCloses(s: State, k: CallId) returns (ls: Schedule, t: State)
    requires Inv(s) && s.closer == Stopping && s.disp == Polling
    ensures Closes(s, ls, t, k) && Inv(t)
  {
    assert CloserOk(s);
    var s1 := s.(disp := Exited);
    DispatchKeeps(s, Exit);
    ExitLeads(s, s1);
    ls, t := ExitedCloses(s1, k);
    ls := FirstToClosed(s, Dispatch(Exit), s1, ls, t, k);
  }

  /** The call the dispatcher is at work on, if there is one. */
  function Busy(d: Dispatcher): CallId {
    if d == Polling || d == Exited then 0 else d.k
  }

  lemma BusyView(v: View)
    requires CallOk(v)
    ensures v.role.Stores? ==> v.call.pc == Returned
    ensures v.role.Completes? ==> Underway(v.call.op)
  {
    assert OpPart(v);
  }

  /** Whatever it is at, the dispatcher can come back to its queue by its own steps. */
  lemma DispatcherReturns(s: State) returns (ls: Schedule, t: State)
    requires Inv(s) && s.disp != Exited
    ensures Goes(s, ls, t, Busy(s.disp)) && Inv(t) && t.disp == Polling && t.closer == s.closer
  {
    if s.disp == Polling {
      Stays(s, 0);
      return [], s;
    }
    var k := Busy(s.disp);
    assert DispOk(s) && CallOk(ViewOf(s, k));
    BusyView(ViewOf(s, k));
    match s.disp
    case Holding(_, f) => ls, t := HoldingFinishes(s, k, f);
    case Swapping(_, f) => ls, t := SwappingFinishes(s, k, f);
    case Releasing(_, f) => ls, t := ReleasingFinishes(s, k, f);
    case Storing(_, f) => ls, t := StoringFinishes(s, k, f);
    case Completing(_) => ls, t := CompletionFinishes(s, k);
  }

  lemma StoppingCloses(s: State) returns (ls: Schedule, t: State)
    requires Inv(s) && s.closer == Stopping
    ensures Closes(s, ls, t, Busy(s.disp)) && Inv(t)
  {
    var k := Busy(s.disp);
    if s.disp == Exited {
      ls, t := ExitedCloses(s, k);
      return;
    }
    var s1, rest;
    ls, s1 := DispatcherReturns(s);
    rest, t := PollingCloses(s1, k);
    EndOfBoth(s, ls, s1, rest);
    assert forall i :: 0 <= i < |ls + rest| ==> (ls + rest)[i] == if i < |ls| then ls[i] else rest[i - |ls|];
    ls := ls + rest;
  }

  lemma SwappedCloses(s: State) returns (ls: Schedule, t: State)
    requires Inv(s) && s.closer == Swapped
    ensures Closes(s, ls, t, Busy(s.disp)) && Inv(t)
  {
    var s1 := s.(closer := Stopping, stops := s.stops + 1);
    ShutKeeps(s, CloseStop);
    ShutLeads(s, CloseStop, s1);
    ls, t := StoppingCloses(s1);
    ls := FirstToClosed(s, Shut(CloseStop), s1, ls, t, Busy(s.disp));
  }

  lemma IdleCloses(s: State) returns (ls: Schedule, t: State)
    requires Inv(s) && s.closer == Idle
    ensures Closes(s, ls, t, Busy(s.disp)) && Inv(t)
  {
    assert CloserOk(s);
    var s1 := DoClose(s);
    ShutKeeps(s, CloseCall);
    ShutLeads(s, CloseCall, s1);
    ls, t := SwappedCloses(s1);
    ls := FirstToClosed(s, Shut(CloseCall), s1, ls, t, Busy(s.disp));
  }

  /**
   From every reachable state Close can return by the steps of the closer and of the dispatcher alone: the dispatcher
   finishes the entry it is at and exits, and the pool is drained.
   */
  lemma CloseCanReturn(s0: State, ls: Schedule, s: State) returns (more: Schedule, t: State)
    requires Reaches(s0, ls, s)
    ensures Closes(s, more, t, Busy(s.disp)) && Reaches(s0, ls + more, t) && t.handlesClosed
  {
    ReachedIsSound(s0, ls, s);
    match s.closer {
      case Idle => more, t := IdleCloses(s);
      case Swapped => more, t := SwappedCloses(s);
      case Stopping => more, t := StoppingCloses(s);
      case Tearing => more, t := TearingCloses(s, Busy(s.disp));
      case Draining => more, t := DrainingCloses(s, Busy(s.disp));
      case Over => more, t := [], s;
    }
    assert CloserOk(t);
    ReachesOn(s0, ls, s, more, t);
  }
}
