# Verified model of the libfabric-go completion engine

This project models the asynchronous completion engine of libfabric-go in Dafny and proves what it keeps: what
happens to an operation from `SendAsync` or `ReceiveAsync`, through the provider and the completion queue, to the
resolved future. `dafny verify dfyconfig.toml` checks all of it.

The model has two layers.

**Protocols.** The concurrent parts are state machines. One label is one atomic step of the code: an atomic
operation, a mutex region, a channel operation, an operation on the registry, a malloc or a free. A schedule is any
interleaving of such steps by any number of goroutines, and the theorems are about every schedule.

- `ContextProtocol`, `ContextTheorems`: completion contexts, their registry and the C heap (fi/context.go).
- `PoolProtocol`, `PoolTheorems`: the memory-region pool and its drain (fi/memory_pool.go).
- `OperationProtocol`: one operation, `complete` racing with `addCallback` (client/client.go).
- `ClientProtocol`: any number of calls, the dispatcher, any number of `Close` calls, the senders' own code and the
  provider, stepping over the context and pool protocols. `ClientInvariant` states the invariant call by call,
  `ClientPreservation` proves that every step keeps it, and `ClientTheorems`, `ClientChoices`, `ClientOutcomes`,
  `ClientCounters` and `ClientShutdown` hold the results. `ClientProgress`, `ClientCalls` and `ClientEnds` prove that
  from every reachable state calls can return, served requests can settle and `Close` can return. `ClientLosses` and
  `ClientBlank` are runs in which the code does not do what one would expect, put together from the steps in
  `ClientSteps`.
- `HandleProtocol`: handshakes, accepted clients and their closers around one listener (client/listener.go).

**Code.** The same files as one goroutine runs them, in the form of the source: classes whose methods update fields,
and loops. Each class has an abstract value; methods are specified by functions on it, and what the source promises
is proved about those functions.

- `Runtime`: the process (C heap, Go slices, registry) and `CompletionContext`.
- `Regions`, `Pools`: `MemoryRegion`, `Domain`, access flags, `MRPool`.
- `Posting`, `Endpoints`: the six posting functions.
- `Waiting`: the polling loop of the Sync calls.
- `Clients`, `Dispatching`, `Sending`: `operation`, handlers, `emit`, the dispatcher loop, `sendAsync` and
  `ReceiveAsync`. `Draining` holds what the dispatcher loop comes to, for every script of the queue.
- `Listeners`: `Accept`, `handleConnReq`, `waitForConnected` and the two `Close` methods.

## Environment

- malloc returns nil or any address that is not live now, however recently it was freed; fresh memory has arbitrary
  contents in the code layer and zeros in the protocols, where nothing reads it.
- A failed post and a failed inject deliver nothing. An accepted post yields at most one queue entry, which carries
  its own context pointer; the entry may be read before the posting call returns. A success entry of a send comes
  after the provider has read the message, one of a receive after it has placed one.
- A posted receive may get any message that fits it: one that the provider read from a send of the same client, or one
  from elsewhere.
- A context is posted at most once, and posting it does not overlap a release of it. `Release` on a posted context is
  possible in `ContextProtocol`; `ExactDelivery` assumes that it does not happen and `MisuseMisdelivers` shows why.
- Registration, handle close and every other provider call may fail. In the code layer what malloc and the provider
  answer are inputs of a method, so its contract says exactly when it fails and with which error.
- Atomics, mutex regions and channel operations are sequentially consistent.
- Handlers, callbacks and cleanups are opaque: that they are started or called, with what, and in which order is in
  the model, what they do is not.

## Where the code differs from what one would expect

- A receive or read that goes through a region never fills the caller's slice: copy-back needs a staging buffer, and
  the region path makes none (fi/context.go:126, fi/messaging.go:117-132), although fi/messaging.go:99-100 promises a
  populated buffer. `RegionReceiveDoesNotFill` proves it, `ReceiveShowsNothing` is a run of it, and
  `FilledExactlyByTheGuards` says when the slice is filled: exactly if the length is above the size of the pool, or
  there is none, and the domain does not require registration, or the slice held those bytes before.
- An entry whose operation is not attached to its context yet when the dispatcher looks is dropped, and the operation
  never completes: `EntryIsDropped` is a run of it, `CompletesExactlyIfAttached` says exactly when, and `OrphanForEver`
  what is left. The counters stay consistent with it: `CounterConservation`.
- When the dispatcher reads the success queue while an error entry is pending, it is answered FI_EAVAIL, which comes
  back as an error (internal/capi/errors.go:86-100, internal/capi/endpoint.go:256-292), and it records that as a failure
  of its own (client/client.go:1175-1183). From then on every send and receive is refused. With a queue that works
  without fault this is exactly what ends posting: `AnnouncementIsRecorded` and `AnnouncementEndsPosting`, with
  `RefusedExactlyAfterTrouble` for any queue. An error entry that arrives between the two reads of a turn is completed
  without such a record, so one failed operation ends posting or does not: `OneFailureMayEndPosting`.
- A Sync call waits on the success queue alone, so a pending error entry, whoever it belongs to, makes it fail and
  leaves its target registered (fi/wait.go:90-126): `PendingErrorFailsWait`.
- `Release` of the pool, once past its checks, can push a region into a pool that `Close` has drained:
  `SpanningReleaseStrands`. What is in a closed pool came that way (`PooledAfterClose`), and a pool that is empty when
  `Close` returns stays empty exactly if nobody is between check and push then, or its capacity is 0:
  `EmptyForEverExactly`.
- A receive or read without a region that the provider refuses copies the unused staging buffer, with whatever malloc
  left in it, into the caller's slice (fi/context.go:97-129). `LeftBy` in the failure clauses of the receives and reads
  says exactly when; `FailedReceiveChangesTheSlice` is an input where it shows.
- `Close` of a client does not complete operations in flight: `CloseLeavesPending` is a run in which it returns while
  the future of a posted send is pending, and `SettledExactlyAtExit` says which futures are left so: those of the posted
  operations that are not settled when the dispatcher exits.
- `Close` of a listener closes domain and fabric under the clients it has accepted, whether they are closed or not:
  `ListenerClosesUnderClients`.
- The length in the result of a receive is the posted size (client/client.go:872, client/client.go:1238), so it is the
  length of the message exactly if that fills the buffer: `LengthIsThePostedSize`, with `ReceiveShowsNothing` as a run
  in which it is not.
- A context given to `Release` while its entry is outstanding can hand its entry to another context:
  `ReleaseOfPostedMisdelivers`, for every such context in every state.

## Model

| member | source | states |
|---|---|---|
| `Runtime.Process.Malloc` | internal/capi/memory.go:15-24 | given what malloc would answer: that address with a block of the size asked for, or nil exactly if the answer is nil or live |
| `Runtime.Process.FreeBytes` | internal/capi/memory.go:27-32 | frees a live block and nothing else; every caller proves that the block is live |
| `Runtime.Process.NewCompletionContext` | fi/context.go:39-47 | a fresh registered context on a fresh token, or nil with nothing changed, which happens exactly if malloc fails |
| `Runtime.CompletionContext.SetValue` | fi/context.go:58-62 | attaches the value to this context alone; also works, without effect on the registry, on a released one |
| `Runtime.CompletionContext.AddOnComplete` | fi/context.go:71-78 | appends one callback to this context alone; nil is ignored |
| `Runtime.CompletionContext.AddCleanup` | fi/context.go:81-88 | appends one cleanup to this context alone; nil is ignored |
| `Runtime.CompletionContext.SetCopyBack` | fi/context.go:31-35 | registers the slice to fill at release |
| `Runtime.CompletionContext.EnsureBuffer` | fi/context.go:154-175 | keeps a large enough buffer; otherwise the old one is freed and a new one of the size comes, or none; it fails exactly if malloc does |
| `Runtime.CompletionContext.ReleaseOnce` | fi/context.go:101-139 | only the first call acts; it frees, copies back, runs callbacks and cleanups as the release function on worlds says |
| `Runtime.CompletionContext.Release` | fi/context.go:95-99 | a release without completion callbacks, once |
| `Runtime.Process.ResolveCompletion` | fi/context.go:141-152 | an unknown or nil pointer changes nothing; a known one is taken out of the registry and released with its callbacks |
| `Runtime.ReleaseFreesItsOwn` | fi/context.go:126-138 | a release frees exactly the token and the staging buffer of its context; every other block and context is as before |
| `Runtime.ReleaseFillsTheSlice` | fi/context.go:126-129 | after a release the registered slice has the front of the staging buffer and no other byte of the user's memory has changed; without a staging buffer none has |
| `Runtime.CallbacksInOrder` | fi/context.go:121-125 | completion callbacks run first and first in, first out |
| `Runtime.CleanupsInReverse` | fi/context.go:135-138 | cleanups run last in, first out, after everything but the free of the token |
| `Runtime.ResolveOnce` | fi/context.go:145-151 | resolving a pointer a second time does nothing |
| `Runtime.ReleaseKeepsOk` | fi/context.go:101-139 | a release keeps every live block owned by exactly one unreleased context or region |
| `Runtime.StageKeepsOk` | fi/context.go:154-175 | so does the exchange of a staging buffer |
| `ContextProtocol.StepKeepsInv` | fi/context.go:39-175 | every step of creators, posters, readers and releasers keeps ledger, registry and field invariants, with no double free and no read after free |
| `ContextTheorems.LedgerInEveryRun` | fi/context.go:101-175 | in every run the live C blocks are the disjoint union of unfreed tokens, staging buffers and region buffers, no two owners share one, and nothing was freed twice |
| `ContextTheorems.ReleaseLeavesNothing` | fi/context.go:126-138 | a context whose release is over owns no live block and no registry entry |
| `ContextTheorems.StepMovesForward` | fi/context.go:101-152 | contexts only move from creation towards the free of their token |
| `ContextTheorems.TokenFreedAtMostOnce` | fi/context.go:105-107 | however many threads release or resolve a context, its token is freed at most once |
| `ContextTheorems.CallbacksAtMostOnce` | fi/context.go:112-125 | completion callbacks run at most once, and did run, when all is over, exactly if a reader won the swap |
| `ContextTheorems.UnfreedPointerIsNotStolen` | fi/context.go:39-47 | until its token is freed, a pointer resolves to its own context or to nothing, whatever malloc hands out again |
| `ContextTheorems.DeregisteredBeforeFreed` | fi/context.go:108-151 | a token about to be freed is not in the registry |
| `ContextTheorems.ExactDelivery` | fi/context.go:95-152 | if no posted context is given to Release, every entry resolves to the context created for its post, never to another and never to unknown |
| `ContextTheorems.MisuseMisdelivers` | fi/context.go:95-99 | a run with Release on a posted context in which an entry resolves to another post's context |
| `ContextTheorems.ReleaseOfPostedMisdelivers` | fi/context.go:95-152 | in every state, and for every context whose entry is outstanding and whose token is not freed, a release of it can be continued, with malloc reusing the address, so that its entry resolves to any given later context |
| `ContextTheorems.RegionsComeAndGo` | internal/capi/memory.go:15-32 | in every state a region can be mapped at any address that malloc grants and unmapped again, which leaves the C heap as it was |
| `Regions.LocalAccessGranted` | fi/memory.go:163-172 | registration keeps every requested access bit and adds none but local, which it grants exactly if it is requested, the default, or required by the domain |
| `Regions.RegisteredRegionPasses` | fi/memory.go:290-308 | the check of the posting functions passes an open region, registered by copy or by pointer, exactly under that condition |
| `Regions.MemoryRegion.Close` | fi/memory.go:109-128 | fails, and changes nothing, exactly if the region is open and the provider refuses; otherwise all fields are reset and the buffer is freed if the region owns it |
| `Regions.Domain.RegisterMemory` | fi/memory.go:151-194 | a copy of the bytes in a fresh block with the effective access, which passes the posting check exactly if local access is asked for or required; each error exactly under its own condition, closed domain, empty buffer, unsupported mode, malloc's refusal or the provider's, with the C heap as before |
| `Regions.Domain.RegisterMemoryPointer` | fi/memory.go:199-235 | a region on the caller's memory that does not own it, with the effective access, which passes the posting check exactly if local access is asked for or required; each error exactly under its own condition |
| `Pools.NewMRPool` | fi/memory_pool.go:27-43 | closed domain and non-positive size are refused; a negative capacity is none |
| `Pools.MRPool.Acquire` | fi/memory_pool.go:47-65 | the longest-pooled region, or a new one of zero bytes if the pool is empty: open, of the pool's size and access, and no longer the pool's; PoolClosed exactly if the pool is closed, and otherwise an error exactly if the pool is empty and the registration fails, with the cause of that; a failure changes nothing |
| `Pools.MRPool.Release` | fi/memory_pool.go:69-82 | pooled if pool open, size right and room left; otherwise closed, or left as it is exactly if the provider refuses; the pool stays in order if the region is an own one that it does not hold |
| `Pools.MRPool.Close` | fi/memory_pool.go:85-97 | the first call empties the pool; exactly the regions that the provider does not refuse to close are closed, their buffers freed, and nothing else is freed |
| `Pools.PooledRegionPasses` | fi/memory_pool.go:47-65 | on a domain that requires local registration every pooled region passes the posting check, whatever access the pool asks for |
| `PoolProtocol.StepKeepsInv` | fi/memory_pool.go:45-97 | every step of any number of acquirers, releasers and the closer keeps the pool invariant |
| `PoolProtocol.PooledRegions` | fi/memory_pool.go:73-81 | the channel holds only open regions of the configured size |
| `PoolTheorems.RegionIsInOnePlace` | fi/memory_pool.go:47-97 | in every run the channel is within capacity and a region is in at most one place: channel, one caller, or the closer |
| `PoolTheorems.OwnedBytesAreStable` | fi/memory_pool.go:47-82 | whatever the others do, the bytes of a region in a caller's hands stay until that caller acts |
| `PoolTheorems.ClosedStepPays` | fi/memory_pool.go:85-97 | after the swap of closed no step adds to what the drain has to take out, and each take removes one |
| `PoolTheorems.DrainIsBounded` | fi/memory_pool.go:89-96 | the drain loop goes round at most once per region pooled or being pushed when it starts |
| `PoolTheorems.DrainProgress` | fi/memory_pool.go:89-96 | until Close returns one of its steps is possible |
| `PoolTheorems.PooledAfterClose` | fi/memory_pool.go:69-97 | after Close whatever is in the channel was pushed by a Release past its checks at the swap; with no such Release it stays empty |
| `PoolTheorems.EmptyForEverExactly` | fi/memory_pool.go:69-97 | a closed pool that is empty when Close returns is empty in every continuation exactly if no Release is between its checks and its push, or the capacity is 0 |
| `PoolTheorems.SpanningReleaseStrands` | fi/memory_pool.go:73-78 | a run in which such a Release leaves an open region in the closed pool |
| `PoolTheorems.AcquireCanSucceed` | fi/memory_pool.go:47-65 | in every state with an open pool Acquire can return by its own steps alone with the longest-pooled region, or, from an empty channel, with any new region of the configured size |
| `PoolTheorems.AcquireCanFail` | fi/memory_pool.go:57-63 | from an empty open pool it can return an error, with nothing changed |
| `PoolTheorems.ReleaseCanReturn` | fi/memory_pool.go:69-82 | from every reachable state Release can return by its own steps alone, the region pooled exactly if pool open, size right and room left, and closed otherwise |
| `Posting.EnsureContext` | fi/messaging.go:31-39 | the caller's context or a new one; it fails exactly if the caller's is released, or there is none and malloc fails; nothing else changes |
| `Posting.CheckRegion` | fi/messaging.go:68-80 | the length of the message, or each of the three errors exactly under its condition: closed, not local, too short |
| `Posting.PrepareOut` | fi/messaging.go:66-89 | the memory a transmit is posted with holds exactly the message, and nothing of any other context has changed |
| `Posting.PrepareIn` | fi/messaging.go:114-141 | the memory a receive is posted with, and copy-back registered; a region leaves no staging buffer |
| `Posting.Withdraw` | fi/messaging.go:70-93 | releasing on a failing exit undoes everything the call did to C heap and registry, and leaves the user memory that the release of that context makes |
| `Posting.StaleBytesShow` | fi/context.go:115-129 | after a refused receive without region the slice holds the stale bytes of the staging buffer, and memory is as before exactly if those are the bytes it held |
| `Posting.FailedReceiveChangesTheSlice` | fi/messaging.go:148-152 | a world with a staged receive in which the release on a refusal turns the 1 in the slice into the 0 of the staging buffer |
| `Posting.NoneOfItsOwn` | fi/messaging.go:31-39 | a context that does not exist owns no live block, so undoing a new context restores the old heap exactly |
| `Endpoints.Endpoint.PostSend` | fi/messaging.go:43-97 | given the answers of malloc and provider: inject exactly when allowed and taken, else post; the provider then has exactly one new message with the right bytes and destination; the error is that of the first check that fails, and there is none exactly if all pass; on failure nothing new, heap and registry as before, and the caller's own context released |
| `Endpoints.Endpoint.Transmit` | fi/messaging.go:66-97 | region or staging, the call, and the release if it fails; fails exactly for the region check, malloc or the provider |
| `Endpoints.Endpoint.Expect` | fi/messaging.go:114-155 | the same for receives: what will be copied back where on success; on failure the user's memory is as before, or has the stale bytes of the staging buffer exactly if there is no region, the buffer is not empty and the provider was called |
| `Endpoints.Endpoint.PostRecv` | fi/messaging.go:101-155 | one receive of the right size, source 0 replaced by unspecified, with copy-back set up; the error is that of the first check that fails, and none exactly if all pass; failure leaves heap and registry as before and the user's memory as in `Expect` |
| `Endpoints.Endpoint.PostRead` | fi/rma.go:25-76 | one read with copy-back set up, an empty request refused; the error is that of the first check that fails, and none exactly if all pass; failure leaves heap and registry as before and the user's memory as in `Expect` |
| `Endpoints.Endpoint.PostWrite` | fi/rma.go:79-127 | one write of exactly the bytes, an empty request refused; the error is that of the first check that fails, and none exactly if all pass; failure is clean |
| `Endpoints.Endpoint.PostTaggedSend` | fi/tagged.go:31-68 | one tagged send of exactly the bytes; the error is that of the first check that fails, an unsupported endpoint among them, and none exactly if all pass; failures leave nothing |
| `Endpoints.Endpoint.PostTaggedRecv` | fi/tagged.go:71-109 | one tagged receive with copy-back set up; the error is that of the first check that fails, and none exactly if all pass; failure leaves heap and registry as before and the user's memory as in `Expect` |
| `Waiting.ResolveFor` | fi/wait.go:112-124 | resolves an entry, whoever it belongs to, and recognises the target exactly if it is the registered context of the pointer |
| `Waiting.WaitForCompletion` | fi/wait.go:75-126 | the loop ends as the scan function says, with its world, and has used up exactly that part of the queue; a nil target succeeds at once, a nil or closed queue is refused |
| `Waiting.WaitEndsExactly` | fi/wait.go:90-126 | for every script and every timeout: the wait goes on over entries of others and over idle reads and ends at the first turn that is cancelled, carries the entry of the registered target, is idle with timeout 0 or a past deadline, or fails; as success, cancellation, timeout or that error; with exactly the entries read by then resolved in order |
| `Waiting.PatientWait` | fi/wait.go:98-126 | with a timeout other than 0, however often the queue is idle in between: success at the first entry of the target unless a late idle read comes before, which is a timeout; with a negative timeout it never gives up |
| `Waiting.WaitFindsTarget` | fi/wait.go:90-126 | single reader, timeout 0: success exactly if an entry carries the target's pointer, the queue consumed up to the first such entry or entirely, and every consumed entry resolved |
| `Waiting.PendingErrorFailsWait` | fi/wait.go:90-126 | with an error entry pending behind these entries, a wait of any timeout succeeds exactly if an entry carries the target's pointer, and otherwise fails with FI_EAVAIL, its target still registered |
| `Waiting.ReleasedTargetTimesOut` | fi/wait.go:90-126 | a target released before the wait is never found and the whole queue is consumed |
| `Waiting.ResolveAllTraces` | fi/wait.go:112-124 | the consumed entries release each known context once, in queue order, with its callbacks and cleanups in their orders |
| `Waiting.TimeoutHasAReason` | fi/wait.go:98-110 | a timeout is reported only for timeout 0, a past deadline, or a timeout of the provider |
| `Waiting.DoneIsTheTarget` | fi/wait.go:119-124 | success is reported only at an entry of the still registered target |
| `OperationProtocol.StepKeepsInv` | client/client.go:343-388 | every step of completers and addCallback callers keeps the invariant of an operation |
| `OperationProtocol.DoneMeansAllDone` | client/client.go:343-367 | done closed implies the first offered result stored, counters and handlers done once, region released once |
| `OperationProtocol.FirstResultWins` | client/client.go:343-373 | the stored result is the first one offered and never changes |
| `OperationProtocol.CallbacksExactlyOnce` | client/client.go:343-388 | no callback is started twice or with another result; all registered ones are started when completer and addCallback calls are over |
| `OperationProtocol.CompletionProgress` | client/client.go:343-367 | once a result was offered the completer always has a step, and a measure decreases |
| `OperationProtocol.EveryCallbackStarts` | client/client.go:343-388 | from every reachable state in which a result was offered, the steps of the completer and of late addCallback calls alone close done, with everything done once, and start every callback registered so far exactly once |
| `OperationProtocol.OffersAreAnswered` | client/client.go:343-388 | in every reachable state a callback can be added and a result offered, after which some run settles the operation with the first result ever offered and starts that callback exactly once |
| `OperationProtocol.HistoryGrows` | client/client.go:343-388 | what was offered and started stays |
| `ClientPreservation.StepKeepsInv` | client/client.go:701-1252 | every step of callers, dispatcher, closers, provider and senders' own code keeps the client invariant |
| `ClientTheorems.RegionIsExclusive` | client/client.go:960-1036 | until its release starts a call's region is open, in no other call's hands, not pooled and not with the closer |
| `ClientTheorems.InFlightBytesAreThePayload` | client/client.go:788-828 | while a send is in flight the memory the provider reads holds the payload as it was at the call |
| `ClientTheorems.ProviderGetsThePayload` | client/client.go:788-828 | on every path the provider reads at most one message, the payload at call time; none for a call that failed, one for a call that completed without error |
| `ClientTheorems.RoundTrip` | client/client.go:1207-1252 | a receive without region that resolved without error has, before done closes, its message at the front of the caller's slice, which is the sender's payload if it came from a send of this client |
| `ClientTheorems.RoundTripBetweenClients` | client/client.go:788-891 | a message that the provider read from a send of one client and placed for a receive without region of another is, when that resolves without error, the sender's payload in the receiver's slice |
| `ClientTheorems.RegionReceiveDoesNotFill` | fi/messaging.go:117-132 | a receive through a region leaves the caller's slice as it was |
| `ClientTheorems.FilledExactlyWithoutRegion` | client/client.go:1006-1036 | a resolved receive shows its message exactly if its request had no region, or the slice held those bytes before; a message from a send of this client is its payload |
| `ClientChoices.RegionIsTheGuards` | client/client.go:966-1036 | a completed request had a region exactly if it fitted the pool the client was made with, or the domain requires registration |
| `ClientChoices.FilledExactlyByTheGuards` | client/client.go:1012-1035 | a receive that resolved without error shows its message exactly if pool, size and registration mode, all known before the call, send it the way without region, or the slice held those bytes before |
| `ClientChoices.LengthIsThePostedSize` | client/client.go:1238 | the length in every result is the posted size, which for a receive is that of the message exactly if it fills the buffer |
| `ClientBlank.ReceiveShowsNothing` | client/client.go:1025-1033 | a run in which a receive through a region completes without error, its slice unchanged and its length not that of the message |
| `ClientTheorems.StepIsLater` | client/client.go:343-367 | no step forgets a call, takes back a result or undoes a release |
| `ClientOutcomes.MilestonesExactlyOnce` | client/client.go:343-367 | handlers told once, region given back once by error path or completion and never both, future settled once, exactly when the call has come so far; that it can come so far is in `ClientEnds` |
| `ClientOutcomes.EndedCallGaveBack` | client/client.go:811-817 | a call that failed, or whose future is settled, has given its region back exactly once and no longer holds it |
| `ClientOutcomes.FailedCallLeavesNothing` | client/client.go:811-817 | a failed call leaves no registry entry, token, staging buffer or region in hand |
| `ClientOutcomes.ResultIsFinal` | client/client.go:343-352 | once an operation has a result it keeps it in every continuation |
| `ClientOutcomes.OrphanForEver` | client/client.go:1224-1228 | an operation whose entry was dropped stays pending for ever, with its region, while its context is gone |
| `ClientOutcomes.CompletesExactlyIfAttached` | client/client.go:1207-1252 | in every run, when the dispatcher looks for the operation on the context of an entry, it goes on to store a result exactly if the posting call has attached the operation before, and drops the entry exactly if it has not |
| `ClientLosses.EntryIsDropped` | client/client.go:811-827 | a run from a fresh client in which the entry of a posted send is dropped |
| `ClientCounters.CounterConservation` | client/client.go:811-827 | posted is completed plus errored plus the counted operations that wait, are in the middle of completing, or are orphaned, for sends and for receives, in every reachable state |
| `ClientCounters.StepKeepsStats` | client/client.go:1254-1286 | every step keeps every counter equal to the number of operations it counts |
| `ClientShutdown.TeardownAfterExit` | client/client.go:701-739 | stop channel closed once, teardown once; a pool or handle closed by it implies that the dispatcher has exited |
| `ClientShutdown.NothingAfterExit` | client/client.go:1167-1205 | after its exit the dispatcher takes no step and outstanding operations stay outstanding |
| `ClientShutdown.NothingAfterTeardown` | client/client.go:709-739 | the same from the start of the teardown on, in every run |
| `ClientShutdown.SettledExactlyAtExit` | client/client.go:701-739 | in every continuation of a state in which the dispatcher has exited, a call that the provider took, before or after, is settled exactly if it was settled at the exit, and outstanding otherwise |
| `ClientLosses.CloseLeavesPending` | client/client.go:701-739 | a run from a fresh client in which Close returns, everything closed, while the future of a posted send is pending |
| `ClientShutdown.RecordedErrorIsTheFirst` | client/client.go:1325-1330 | the recorded dispatcher error is the first one and never changes |
| `ClientEnds.StoredCompletionSettles` | client/client.go:343-367 | from every reachable state in which a result is stored, some run of the completer's own steps, dispatcher or injecting sender, settles the future with that result, with or without a region to release |
| `ClientEnds.ServedCallSettles` | client/client.go:1207-1252 | from every reachable state in which the dispatcher polls and an attached request has its entry in the queue, some run of the dispatcher's own steps settles the future, with an error exactly if the entry is one; a receive without region then shows its message |
| `ClientEnds.RequestCanSettle` | client/client.go:788-891 | from every reachable state of an open client without recorded error whose dispatcher polls, a new send or receive of any non-empty slice, pooled, registered or staged, can run to a settled future without error, the payload with the provider or the message, unless a region took it, in the slice |
| `ClientEnds.InjectCanSettle` | client/client.go:811-825 | the same for a send within the inject limit, whatever the dispatcher does |
| `ClientEnds.OverwrittenSendIsServed` | client/client.go:788-828 | from every reachable state with an attached send in flight, after the sender has overwritten its slice with any bytes, the provider can still read it, and gets the payload as it was at the call |
| `ClientEnds.ErrorEndsPosting` | client/client.go:795-797 | from every reachable state in which it polls the dispatcher can record an error, and from then on, in every continuation, no call gets past its first checks |
| `ClientEnds.CallReturns` | client/client.go:788-891 | no call waits for anybody: from every reachable state some run of its own steps alone makes it return its future or an error |
| `ClientEnds.CallCanFail` | client/client.go:799-817 | where an error can occur, the call can return it by its own steps alone, and nothing of any call has changed but that it has failed |
| `ClientEnds.CloseCanReturn` | client/client.go:701-739 | from every reachable state Close can return, with all handles closed, by the steps of the closer and of the dispatcher alone |
| `Clients.Operation.Complete` | client/client.go:343-367 | first call: result, counter, every handler once, release, done, callbacks in this order, the handlers of a receive with what its slice holds; later calls nothing |
| `Clients.Operation.AddCallback` | client/client.go:375-388 | kept before completion, started at once with the stored result after it; nil is ignored |
| `Clients.Operation.Await` | client/client.go:396-412 | a closed done wins over cancellation; with neither the call blocks |
| `Clients.Client.RegisterSendHandler` | client/client.go:1099-1115 | a new identifier, used by no handler, for this handler; nil is ignored |
| `Clients.Client.RegisterReceiveHandler` | client/client.go:1119-1135 | the same for receive handlers |
| `Clients.Client.UnregisterSend` | client/client.go:1110-1114 | removes this identifier and no other |
| `Clients.Client.UnregisterReceive` | client/client.go:1130-1134 | the same for receive handlers |
| `Clients.RegisteredExactly` | client/client.go:1099-1135 | after any history a handler is registered exactly if its registration is not followed by an unregister of the identifier it was given |
| `Clients.Client.Emit` | client/client.go:1254-1323 | the counter of successes or of errors moves by one and no other, and every handler of the kind is started exactly once; that of a receive with an array of the length of the result that has, byte for byte, the front of the caller's slice |
| `Clients.Client.FanOutSend` | client/client.go:1267-1280 | every registered send handler is started once with the result, in any order |
| `Clients.Client.FanOutReceive` | client/client.go:1289-1318 | every registered receive handler is started once, with an array of its own that holds the payload and is shared with nobody |
| `Dispatching.HandleCompletion` | client/client.go:1207-1252 | resolves the entry and completes the operation attached to its context, with the error of the entry exactly if it came from the error queue; the handlers of a copied-back receive get exactly the bytes its staging buffer had; operations, counters and log change by that and by nothing else |
| `Dispatching.RecordError` | client/client.go:1325-1330 | only the first error is recorded |
| `Dispatching.Dispatch` | client/client.go:1137-1205 | the loop does what the run function says to world and recorded error, and the operations and counters are exactly what the calls of complete of that run, with source and error of each entry, make of them |
| `Dispatching.FirstCallDecides` | client/client.go:343-367 | after any calls of complete an operation is complete exactly if it was before or one of them was for it, and has the result of the first, with its size and the error of that entry |
| `Dispatching.CountersCount` | client/client.go:1254-1286 | after any calls every counter has moved by exactly the number of operations of its kind that were completed so |
| `Dispatching.FirstErrorStays` | client/client.go:1175-1193 | the loop goes on after a read error and records the first one for good |
| `Draining.RunHandlesReached` | client/client.go:1167-1205 | for every script: the entries the loop gets to see before a stop are all handled, in their order, and the first read error is recorded, neither depending on the other |
| `Draining.CompletedExactlyOnce` | client/client.go:1167-1252 | for every script: an operation attached to a registered context is completed exactly once if the loop gets to see an entry with its pointer, not at all otherwise, and with an error, that of the entry, exactly if the first such entry is one |
| `Draining.ServedIsReached` | client/client.go:1167-1205 | with two finite queues in any interleaving, any idle reads and read errors, and no stop, the loop sees every entry once, each queue in its order |
| `Draining.DrainDeregisters` | client/client.go:1167-1205 | then exactly the contexts of the entries leave the registry, and the recorded error is the first read error |
| `Draining.DrainCompletesEachOnce` | client/client.go:1167-1252 | then every attached operation with an entry in either queue is completed once and no other, with an error only if the error queue has its pointer, without only if the success queue has it |
| `Draining.ScriptServes` | client/client.go:1167-1205 | the plain script, successes before errors and silent reads in between, is such a script and records nothing |
| `Draining.AnnouncementIsRecorded` | client/client.go:1175-1193 | with a faultless queue the dispatcher records a failure exactly if some read of the success queue announces an error entry by FI_EAVAIL |
| `Draining.RefusedExactlyAfterTrouble` | client/client.go:795-797 | after any script a non-empty send or receive on an open client is refused for a dispatcher failure exactly if the loop saw a read error |
| `Draining.AnnouncementEndsPosting` | client/client.go:795-797 | with a faultless queue, exactly if an error entry was announced |
| `Draining.OneFailureMayEndPosting` | client/client.go:1175-1193 | the same error entry ends posting if it is there at the first read of a turn, and does not if it arrives before the second |
| `Sending.PrepareSend` | client/client.go:960-1004 | pool if it fits, own region if required, else the payload itself; the request transmits exactly the payload; an error exactly if the pool is closed or the registration fails, with its cause |
| `Sending.PrepareReceive` | client/client.go:1006-1036 | the same choice and errors for receives, with a region that is large enough and only this call's |
| `Sending.SendAsync` | client/client.go:788-828 | given the answers of malloc and provider, which error it is, if any, exactly: closed, empty, dispatcher failed, destination required, the cause of a failed registration, or that of a failed post; success: exactly one new message equal to the payload, for the caller's destination or the one peer of a connected endpoint, counted, operation attached, or, exactly if the payload is within the inject limit and inject is taken, complete with its handlers told and its region given back; failure: nothing new, nothing counted, no context, and the region that was taken given back exactly if the post is what failed; never an access error on a domain that requires local registration |
| `Sending.ReceiveAsync` | client/client.go:855-891 | which error it is, if any, exactly, as for sends; success: one receive of the buffer's size with copy-back set up, counted, operation attached; failure as for sends, with the user's memory as before unless the provider refused a receive without region |
| `Listeners.ConnectionEvent.Free` | fi/passive.go:136-142 | provider memory is freed by the first call only |
| `Listeners.WaitForConnected` | client/listener.go:290-326 | ends as the first deciding turn says; every event read is freed exactly once on every exit |
| `Listeners.ConnectedFirst` | client/listener.go:297-325 | success exactly if a Connected event is read before any shutdown, timeout, cancellation or error |
| `Listeners.Listener.Accept` | client/listener.go:162-197 | handles exactly the first connection request, with the outcome of `HandleConnReq`; every event it read, its own and those of the handshake, is freed exactly once on every exit, and no other |
| `Listeners.Listener.HandleConnReq` | client/listener.go:199-288 | the error is the first call of the setup that the provider refuses, or what decides the handshake, and there is none exactly if all are granted and the handshake succeeds; then a client on new open handles that shares fabric and domain, else every handle opened closed exactly once; the request is freed exactly once, and of the handshake exactly the events read, none if the setup failed before it |
| `Listeners.Listener.Close` | client/listener.go:131-151 | the first call closes each of the listener's handles once |
| `Listeners.Client.Close` | client/client.go:701-739 | the first call closes exactly the owned handles, each once; shared ones are untouched |
| `HandleProtocol.StepKeepsInv` | client/listener.go:131-288 | every handle ever opened has exactly one close, done or to come |
| `HandleProtocol.ConnectionHandlesClosedOnce` | client/listener.go:199-288 | in every run each endpoint and queue is closed at most once, and once when its connection is over, by a failed exit or by its client's Close |
| `HandleProtocol.SharedHandlesAreTheListeners` | client/listener.go:131-151 | fabric and domain are closed by the listener's Close and nothing else, in any order of closes |
| `HandleProtocol.ListenerClosesUnderClients` | client/listener.go:131-151 | from every reachable state the listener's Close can run to its end alone, closing domain and fabric once while every accepted client stays open |
| `HandleProtocol.ConnectionCanOpen` | client/listener.go:199-288 | from every reachable state a new connection can be accepted by the steps of its handshake alone, with three new open handles |
| `HandleProtocol.ConnectionCanEnd` | client/listener.go:199-288 | from every reachable state a connection can end by its own steps alone, with every handle opened for it closed exactly once |

## Left out

- The C library and internal/capi: represented by the environment assumptions above.
- Discovery, descriptors, hints, version checks, address vectors, `Dial`, `Connect` and `Listen` set-up: field copying and straight-line opening and closing.
- Metrics, logging, tracing and error texts.
- Wall-clock time: deadlines, cancellation and the end of a sleep are part of the scripts; sleep durations are not modelled.
- Wait sets, event-queue `Read` and `ReadError`, scatter/gather registration, descriptor bytes, registration keys, offsets and flags.
- Wrap-around of 64-bit counters and handler identifiers, and of lengths converted between `int` and `uintptr`.
- Nil receivers and nil requests, which return an error at once; nil functions are modelled.
- Bodies of handlers, callbacks and cleanups; a callback that calls back into the library is not modelled.
- Ordering between `op.client.emit` goroutines after they have started.
- `Stats()`: it reads six counters one after the other, so its result is not a snapshot; the counter results are about the state.
- Contexts of other users of the process in `ClientProtocol`; they are in `ContextProtocol`.
- ClientEnds.CallReturns: says that a schedule exists; that the scheduler ever runs it is not modelled, here and in the other results of that kind.
- ClientTheorems.RoundTripBetweenClients: the two clients have a registry and a C heap each; two clients of one process share them, which is in `ContextProtocol`.
- Clients.Operation.Complete: the release closure is recorded as called, not executed, in the code layer; what the closures do is `Pools.MRPool.Release` and `Regions.MemoryRegion.Close`, and their interplay with calls and completion is in `ClientProtocol`.
- Sending.SendAsync: as for `Complete`, running the release closure on an error path is an entry of the log; the check that a pooled region is too small (client/client.go:982-985) cannot fail for a pool's own regions and is left out.
- The address vector and the pool of a client in `Listeners.Client.Close`; the pool's `Close` is in `Pools`, and its place in the shutdown in `ClientProtocol`.
- Listeners.Listener.HandleConnReq: opening, binding, enabling and accepting are provider calls that the environment grants or refuses, without their arguments; the script of the handshake must come to a decision, as the deadline of five seconds makes it; the started dispatcher is that of `ClientProtocol`.
- Pools.MRPool.Release: says that the pool stays in order only for a region of its own that it does not hold; the code does not check either.
- Regions.Domain.RegisterMemoryPointer: that the caller's memory is valid and stays so is the caller's promise and not checked.
- Runtime.CompletionContext.SetCopyBack: requires an unreleased context and that the slice fits an existing staging buffer, which holds for a context that was not posted before; the code checks neither, and without the second the release reads past the buffer.
- Runtime.CompletionContext.EnsureBuffer: requires an unreleased context, and that a slice already registered for copy-back fits the new size; both hold for a context that was not posted before.
- Endpoints.Endpoint.PostRecv: requires that a context of the caller's has neither staging buffer nor copy-back slice, so was not posted before, as fi/context.go:16-18 asks; the same for `PostTaggedRecv` and `PostRead`.
- Endpoints.Endpoint.PostSend: requires that a context of the caller's has no copy-back slice, so was not used for a receive before; the same for `PostWrite` and `PostTaggedSend`.
- Dispatching.Dispatch: says nothing about how long the loop sleeps; the back-off is a variable of the loop.
