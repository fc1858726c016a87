# Verified model of trust_tee

A remote trust delegates every access to a property `T` to one worker thread, the
trustee. Each client handle owns a channel pair, a request slot and a response slot,
each headed by a flag word that holds one ready bit and a count. A client writes a closure record
into its request slot and flips the request bit; the trustee scans all channels, runs
the records it finds and flips the response bit; a `launch` goes to a pooled fiber,
which flips the response bit later while the trustee goes on scanning. This project
models that protocol, the worker loop that schedules it, the byte layout of the slots,
the sequential `Local` trust it has to agree with, the ownership rules that end it, and one
client program, and proves that they do what the library is for.

`dafny verify dfyconfig.toml` checks the whole project.

## Structure

The protocol is a labelled transition system over any number of clients, fibers and
operations; a step is one access to shared memory or one local decision, and between
any two steps anybody else may move.

| step | what it is | where |
|---|---|---|
| Write, LoadToggle, StoreRequest, Poll, ReadBack | one call of a handle: record, choice of the bit, flag store, one turn of the wait loop, reading the reply | src/trust/remote.rs:90-141 |
| CloneHandle, DropHandle, Entrust | a new channel on the registration queue; the end of a handle | src/trust/remote.rs:29-42, src/runtime/runtime.rs:526-548 |
| DropRuntime | `Runtime::drop` up to the registration; its request is sent by the client steps | src/runtime/runtime.rs:551-597 |
| BeginRound, DrainPop, DrainEnd, EndScan | rounds and the throttled drain | src/runtime/runtime.rs:141-171 |
| LoadReq, LoadResp, Decide | the two separate loads of a visit and its three-way test | src/runtime/runtime.rs:176-211 |
| ExecRepeat, EndBatch, ExecCall, StoreResponse | executing a record and answering it | src/runtime/runtime.rs:213-270, 462-477 |
| MoveOut, StoreMoved | `into_inner` | src/runtime/runtime.rs:271-295 |
| BeginLaunch, PopPool, SendJob, SpawnFiber | handing a launch to a fiber | src/runtime/runtime.rs:296-424 |
| Receive, FiberEffect, FiberComplete, FiberPush | the fiber: job, closure, completion store, return to the pool | src/runtime/runtime.rs:323-411 |
| BeginTerminate, JoinFiber, SetDone, JoinTerminator, TermPop, TermSend, TermSeeDone, TermEnd | the shutdown and its terminator | src/runtime/runtime.rs:427-459 |

- `Operations`, `Schedule`, `Protocol`: requests, the trustee's decisions, the steps.
- `Invariant`, `ClientSteps`, `TrusteeSteps`, `FiberSteps`: the inductive invariant.
- `Atomic`, `Refinement`: the atomic object, and the simulation.
- `Summary`, `Handshake`, `Scans`, `Visits`, `ScanRuns`, `LoopRuns`, `Liveness`,
  `Registration`, `Batches`, `Shutdowns`, `Exits`, `Starvation`, `Sessions`, `Runs`: what follows for
  single steps and whole runs.
- `Workers`, `Services`, `Locals`, `Bank`: the worker loop, the execution of a record,
  `Local` and `BankState` as the classes they are.
- `Bits`, `Bytes`, `Slots`, `Codec`, `SlotWriters`, `Records`: slots as bytes; `SlotRuns`: the
  protocol run over them.
- `Shortcut`: nested calls on the trustee thread.
- `Handles`, `Ownership`: who may terminate the worker, and why the protocol's guards on it hold.
- `Sets`, `Wrappers`: small common things.

## Assumptions

- A channel has one client (`Remote` is not Sync), and a request announces one record;
  every client in the repository stores count 1.
- Acquire/release publication through the flag words is the interleaving of atomic steps.
- The result type and `T` fit into the response slot behind the flag word. The code does
  not check this.
- A launch body is one atomic effect inside its window. A batch is not: its n
  executions are separate steps, and a launch may fall between them.
- Closures terminate and do not panic (`Shortcut` says which nested calls break this). `SegQueue` and the fiber channels are FIFO, and
  the serializer that `apply_with` uses is lossless.
- usize is 64 bits wide and header fields are little-endian.

## Findings

- `next_boundary_offset` meets its documented rule if and only if none of its usize
  additions wraps (`Slots.NextBoundaryIsLeast`, with an input in `Slots.WrapBreaksRule`); no
  layout that Rust allows makes them wrap (`SlotWriters.PlaceIsComputed`).
- The flag word holds a count modulo 2^31 (`Slots.CountIsTruncated`), so it keeps a count if
  and only if that is below 2^31 (`Slots.WordIsPair`).
- A scan is not fair: with three busy clients one is not visited (`Schedule.BusyScanSkipsClient`).
  It visits every client if and only if `start_idx` is not stored before its last visit
  (`Schedule.ScanIsFairExactly`, for runs `ScanRuns.ScanIsFairInRun`). Nor is any number of scans:
  two busy clients can keep a third, registered and waiting, from ever being visited
  (`Starvation.ClientMayStarve`). What always holds is work conservation and an exact schedule.
- Only handles of `Remote::entrust` keep the worker alive; the runtime that `Runtime::spawn`
  returns can be dropped under a living handle (`Handles.SpawnedHandleMayOutlive`), and the
  worker ends exactly with that runtime (`Handles.SpawnTerminatesWithRuntime`).
- A closure that calls `launch` on its own trustee waits for the thread it runs on
  (`Shortcut.SelfLaunchBlocks`), because `launch` has neither the shortcut nor the refusal of the other
  operations. Nested calls on the trustee thread finish if and only if there is no `launch` and no
  `into_inner` among those that are made (`Shortcut.ShortcutIsDirect`); `into_inner` is refused there.
- `with` has the shortcut and not the refusal: without the shortcut it waits even on a trustee
  thread (`Shortcut.NestedCallExactly`).
- A launch that was handed to a fiber may run after `into_inner` has moved the value out
  (`Exits.LaunchMayRunAfterMove`); something can run after it if and only if such a launch had
  not run by then (`Exits.EffectAfterMoveExactly`).
- Once the trustee has begun to leave, by Terminate (while it still joins its fibers, too) or by
  `into_inner`, a call whose flag has been stored and not answered can still return if and only if
  it is a launch already handed to a fiber, or that `into_inner` itself
  (`Exits.CallReturnsExactly`); so a flag stored from then on is never answered
  (`Exits.LateCallNeverReturns`).
- `into_inner` leaves the pooled fibers waiting: after an exit all fibers are gone if and only if
  it was a completed Terminate or there never was a fiber (`Exits.FibersGoneExactly`).
- `create_user` keeps the bank's books consistent if and only if the id counter does not wrap
  (`Bank.CreateKeepsExactly`); 2^64 - 1 creations from the empty bank make it wrap
  (`Bank.CreateMayWrap`).

## Model

| member | source | states |
|---|---|---|
| FiberSteps.NextKeepsInv | src/runtime/runtime.rs:141-494 | every step of client, trustee, fiber or terminator keeps the invariant that ties ready bits, launch flags, stale loads, records, fibers and pool together |
| Refinement.NextRefines | src/runtime/runtime.rs:173-477 | each step is an invocation, one execution, a return or a new client of the atomic object, or invisible to it |
| Refinement.RunRefines | src/runtime/runtime.rs:173-477 | linearizability: the labels of any run, with any number of clients, calls and fibers, are a run of the atomic object |
| Refinement.ValueIsFoldOfExecutions | src/runtime/runtime.rs:213-270 | in every reachable state the property is the initial value folded with the executions so far |
| Refinement.EveryReplyIsJustified | src/trust/remote.rs:90-142 | every reply answers the client's own last request, executed exactly as often as asked between its flag store and the read, with the closure's result on the fold of all earlier executions |
| Refinement.ReachableInv | src/runtime/runtime.rs:141-494 | the invariant holds in every state of every run |
| Operations.FoldMeans | src/trust/local.rs:24-74 | folding a history is executing it one request at a time, in order, each as its own closure says on its own arguments |
| Operations.IterateMeans | src/trust/local.rs:65-73 | iterating f is a chain of n applications of it |
| Atomic.ValueIsFold | src/trust/local.rs:24-74 | the value of the atomic object is the fold of its executions |
| Atomic.EveryCallExplained | src/trust/local.rs:24-74 | how far a call has come is what the history says: invoked once, executed so often, answered by its own execution |
| Atomic.ReturnIsJustified | src/trust/local.rs:24-74 | a return has a matching earlier invocation with exactly the requested executions between them and nothing else by that client |
| Atomic.FinishedHasExecution | src/trust/local.rs:24-74 | a finished call that is no batch has one execution since its invocation, with its reply on the fold of all before |
| Atomic.ExecutionsDiffer | src/trust/local.rs:24-74 | two returns have different executions |
| Handshake.OneBitIsEnough | src/trust/remote.rs:115-140 | the two bits are the parities of requests stored and responses stored in the run, which differ by at most one, and a client that sees its bit has the answer to its last request |
| Handshake.CountersCount | src/runtime/runtime.rs:343-363 | the sequence numbers are the true numbers of request stores and of response stores by trustee and fibers |
| Handshake.SlotOwnership | src/runtime/runtime.rs:243-250 | the request slot changes only by its client while the bits agree; the response slot only while they differ, by the trustee or by the one fiber in flight, never both; the client reads only when they agree and nobody writes |
| Handshake.ServesOnlyFreshRequests | src/runtime/runtime.rs:184-211 | a visit that serves has a request nobody has begun, no fiber in flight, and a loaded word that is still current |
| Handshake.ClearsOnlyFinishedLaunches | src/runtime/runtime.rs:192-207 | `pending_launch` is cleared only when the fiber has finished |
| Handshake.OpenRequestIsServed | src/runtime/runtime.rs:192-211 | the current words of an open request always mean serve, whatever launch went before |
| Handshake.InFlightIsSkipped | src/runtime/runtime.rs:202-205 | the current words of a launch in flight always mean skip |
| TrusteeSteps.LoadsAreJudged | src/runtime/runtime.rs:184-211 | a verdict from a possibly stale request word and a fresh response word is right |
| Visits.OpenIsServedByItsVisit | src/runtime/runtime.rs:184-211 | in any run a request open at the load of its request word is served by that very visit, whatever moves between the two loads and the test |
| Handshake.TokenConservation | src/runtime/runtime.rs:378-424 | in every reachable state a fiber is in exactly one of: its sender pooled or popped, one message in its inbox, past its receive |
| TrusteeSteps.PoppedIsIdle | src/runtime/runtime.rs:378-392 | a popped sender belongs to a fiber that waits with an empty inbox |
| Handshake.SendNeverFails | src/runtime/runtime.rs:378-392 | the failed-send branch is never taken, and dispatch never gives a busy fiber a second job |
| Scans.FairStep | src/runtime/runtime.rs:173-211 | no step lets a scan pass an open request unless the scan has served somebody |
| Scans.ScanMakesProgress | src/runtime/runtime.rs:173-211 | work conservation: a scan throughout which a registered request is open serves or dispatches at least one |
| Scans.BacklogDrains | src/runtime/runtime.rs:173-490 | with no new requests stored, every completed scan takes at least one off the backlog, so m open requests are gone after m scans |
| Liveness.TrusteeNotStuck | src/runtime/runtime.rs:141-477 | in every reachable state the trustee has a step of its own until it exits or winds down: the words, records and senders it finds always fit one of its branches |
| Liveness.ClientNotStuck | src/trust/remote.rs:90-141 | a handle in the middle of a call can always go on |
| Liveness.FiberNotStuck | src/runtime/runtime.rs:394-418 | so can a fiber with a message or a job |
| Liveness.ServiceCost | src/runtime/runtime.rs:141-477 | every step of the trustee lowers a bound on its steps to the end of the round, batches of up to 255 included, or ends the round, with or without clients |
| Liveness.StepsAreBounded | src/runtime/runtime.rs:141-490 | with n channels a round takes at most 260 n + 259 of the trustee's own steps |
| Liveness.BacklogDrainsInSteps | src/runtime/runtime.rs:173-490 | with no new requests stored, m open requests are gone after more than m (260 n + 259) of the trustee's own steps, whether or not scans are assumed to end |
| Visits.ScanFollowsSchedule | src/runtime/runtime.rs:176-182 | in any run a scan that completed k visits has its start where the schedule says, and its next visit goes to (start + k + shifts) mod n |
| LoopRuns.ScanIsLoopScan | src/runtime/runtime.rs:173-477 | any completed scan of any run leaves client pairs, served visits and start as the worker loop's scan does on the words and records its visits found |
| Visits.DecideIsVisit | src/runtime/runtime.rs:189-211 | the decision step of the protocol is the visit of the worker loop |
| Visits.LaunchIsVisit | src/runtime/runtime.rs:296-300 | and with the launch flags, its visit of a launch |
| Schedule.VisitIndexIsMod | src/runtime/runtime.rs:176-181 | conditional subtraction is reduction modulo n |
| Schedule.StartFormula | src/runtime/runtime.rs:476 | `start_idx` before the k-th visit, in closed form |
| Schedule.VisitFormula | src/runtime/runtime.rs:176-181 | the k-th visit goes to (s + k + sum of j + 1 over served visits j) mod n |
| Schedule.AllServedSchedule | src/runtime/runtime.rs:476 | (s + k(k + 3)/2) mod n when every visit serves |
| Schedule.ScanIsFairExactly | src/runtime/runtime.rs:173-182 | a scan visits every client if and only if no visit before its last serves, and then each exactly once |
| Schedule.LastVisitRepeats | src/runtime/runtime.rs:476 | otherwise its last visit goes to the client served last before it |
| ScanRuns.ScanIsFairInRun | src/runtime/runtime.rs:173-476 | in any run a completed scan visits every registered client if and only if none of its visits but the last served or dispatched |
| Schedule.BusyScanSkipsClient | src/runtime/runtime.rs:476 | three busy clients: visits 0, 2, 2 |
| Starvation.BusyPairRepeats | src/runtime/runtime.rs:476 | if the first two visits of three clients serve, client 1 is not visited and the next scan starts where this one did |
| Starvation.ClientMayStarve | src/runtime/runtime.rs:173-476 | for every m there is a run with m completed scans throughout which client 1 is registered and its request open, and none of whose visits is to it |
| Registration.RegistrationOrder | src/runtime/runtime.rs:39-46 | clients followed by the queue is the registration order, nothing lost or doubled |
| Registration.DrainsExactly | src/runtime/runtime.rs:142-146 | a round drains if and only if there are no clients or its counter, which wraps after 2^64 - 1, is a multiple of 16 |
| Registration.DrainGoesOnExactly | src/runtime/runtime.rs:147-158 | a drain goes on exactly while it has joined less than 256 and the queue is not empty, oldest first |
| Registration.JoinsInTime | src/runtime/runtime.rs:139-159 | a channel with p entries ahead joins within 16 * floor((p + 256) / 256) rounds, across the wrap of the counter and later registrations |
| Workers.Worker.DrainRegistrations | src/runtime/runtime.rs:146-158 | a queue of at most 256 registrations is emptied, of a longer one exactly the 256 oldest join, in order |
| Workers.Worker.Visit | src/runtime/runtime.rs:192-211 | the fall-through code computes the three-way verdict and its flags, for this client only |
| Workers.Worker.Scan | src/runtime/runtime.rs:173-477 | the loop with its moving start index is the recursive scan on values, start index and progress flag included, up to the end or to the first served record that leaves the loop |
| Workers.Worker.Round | src/runtime/runtime.rs:141-494 | a whole turn of the loop: counter, drain when there are no clients or the counter is a multiple of 16, scan of the joined clients, idle rounds, or the way out |
| Workers.ScanKeepsOrder | src/runtime/runtime.rs:182-211 | a scan never moves a channel to another index |
| Workers.Dispatch | src/runtime/runtime.rs:378-424 | pops exactly the dead senders before the first live one, and spawns only when the pool held none |
| Services.Service.Serve | src/runtime/runtime.rs:213-295 | executing a record in place, repeat loop included, gives the value and reply that its own closure and arguments give, which are those of the local trust, under the bit that was loaded; a launch or Terminate leaves property and response alone |
| Batches.BatchRuns | src/runtime/runtime.rs:235-242 | during a batch the trustee serves nobody else and the function in the slot stays the same |
| Batches.BatchIsIterate | src/runtime/runtime.rs:235-242 | a batch of n, 0 included, is exactly n executions, and f iterated n times if the launches that run meanwhile leave the value as it is |
| Batches.BatchAmongReaders | src/runtime/runtime.rs:235-242 | when launches only read, as the type of their closures says, a batch is always f iterated n times |
| Locals.FoldIsIterate | src/trust/local.rs:65-73 | a batch request in a history is f iterated n times |
| Locals.Local.ApplyBatchMut | src/trust/local.rs:65-73 | f iterated n times |
| Locals.Local.Perform | src/trust/local.rs:24-79 | the local trust answers every request by its own closure and arguments, as the fold of its executions says, which is what remote replies are justified by |
| Locals.ShortcutBatch | src/trust/remote.rs:326-331 | the shortcut's own loop is f iterated n times |
| Shortcut.CodeRuns | src/trust/remote.rs:67-88 | any code of nested calls and branches reaches, in finitely many steps, its result by direct evaluation, the refusal, or the wait loop, as the first `launch` or `into_inner` it makes decides |
| Shortcut.ShortcutIsDirect | src/trust/remote.rs:67-88 | on the trustee thread a code of nested calls finishes if and only if direct evaluation makes no `launch` and no `into_inner`, then as direct depth-first evaluation; if it makes no `into_inner` it ends in the wait loop if and only if it makes a `launch` |
| Shortcut.SelfLaunchBlocks | src/trust/remote.rs:457-517 | a closure that launches on its own trustee stays in the wait loop, on the thread that would have to answer |
| Shortcut.NestedCallExactly | src/trust/remote.rs:239-310 | in the raw fields (id published, own thread, property known): exactly when each kind of nested call runs here, panics, or waits |
| Shortcut.NestedBatchExactly | src/trust/remote.rs:314-336 | the same for a nested batch |
| Shortcut.EntersOnOwnThread | src/trust/remote.rs:71-83 | a step that enters a callee or a batch happens on the trustee's own thread |
| Shortcut.OtherThreadNeverEnters | src/trust/remote.rs:71-88 | on any other thread no call ever runs its closure in place |
| Shortcut.RecursiveApply | examples/recursive_apply.rs:20-33 | the recursive example ends with the value and the result raised by 2 |
| Shortcut.RecursiveApplyMany | examples/recursive_apply.rs:38-47 | n nested calls that add one raise both by n |
| Shutdowns.ShutdownStep | src/runtime/runtime.rs:427-459 | after Terminate only clients, fibers, terminator and joins move, and every move of the latter three lowers the measure |
| Shutdowns.ShutdownNotStuck | src/runtime/runtime.rs:427-459 | until the worker has exited one of these moves is possible |
| Shutdowns.ShutdownOnlyToIdle | src/runtime/runtime.rs:436-447 | Shutdown reaches only a fiber with nothing to do, so every job sent runs before it |
| Shutdowns.ShutdownIsClean | src/runtime/runtime.rs:451-459 | at exit every fiber is gone, the pool is empty and no launch is unanswered |
| Shutdowns.ShutdownCompletes | src/runtime/runtime.rs:427-459 | in every run the shutdown takes at most 8 f + p + 4 moves, for f fibers and p pooled senders, can always go on, and ends clean |
| Exits.FibersGoneExactly | src/runtime/runtime.rs:271-295 | after any exit all fibers are gone if and only if the terminator has ended or there never was one |
| Exits.CallReturnsExactly | src/runtime/runtime.rs:271-459 | once the trustee has begun to leave, a stored and unanswered call can still return if and only if its launch is with a fiber or it is the `into_inner` being answered |
| Exits.LateCallNeverReturns | src/trust/remote.rs:119-130 | a call whose flag is stored from then on is never answered and never returns |
| Exits.OpenAtExitNeverReturns | src/trust/remote.rs:119-130 | a stored call that is neither is unanswered in every later state of the run, and its reply is never read |
| Exits.NothingAfterMove | src/runtime/runtime.rs:271-295 | if every launch handed over has run when `into_inner` moves the value out, nothing is executed any more |
| Exits.EffectAfterMoveExactly | src/runtime/runtime.rs:271-376 | something can still be executed afterwards if and only if a launch handed over had not run |
| Exits.LaunchMayRunAfterMove | src/runtime/runtime.rs:271-376 | a run in which that happens |
| Runs.EffectsAreWritten | src/runtime/runtime.rs:213-250 | nothing is executed that no client wrote |
| Runs.EffectExecutes | src/runtime/runtime.rs:235-376 | every execution, by the trustee or by a fiber, moves the property and leaves the reply that the closure of the record gives on its own arguments |
| Runs.OthersKeepValue | src/runtime/runtime.rs:141-494 | no other step moves the property |
| Runs.ReplyIsOwnExecution | src/trust/remote.rs:193-235 | every reply but a batch's is what the client's own closure, on its own arguments, gives at one execution before the read |
| Sessions.EveryCallCompletes | src/trust/remote.rs:61-142 | for every request a handle can send there is a run in which it is written, executed and answered, and its client reads the reply of its own closure |
| Sessions.BatchCompletes | src/trust/remote.rs:314-398 | for every f and every n below 256 there is a run of the whole batch, ending in the read, with the value f iterated n times |
| Runs.InvariantTransport | src/runtime/runtime.rs:213-250 | a predicate each closure keeps when run alone holds in every state of every concurrent run |
| Runs.ReloadSeesSameBit | src/runtime/runtime.rs:280-292 | the request word loaded again carries the bit of the first load |
| Runs.IntoInnerIsLast | src/runtime/runtime.rs:271-295 | `into_inner` returns the fold of all executions before it, and the trustee itself executes nothing afterwards |
| Runs.DroppedMeansIdle | src/runtime/runtime.rs:551-597 | in a reachable state with handles that own the runtime and the runtime dropped, no handle has a call or a launch outstanding |
| Runs.TerminateComesFromDrop | src/runtime/runtime.rs:427-459 | the worker terminates only on the request of `Runtime::drop` |
| Runs.TerminateAtMostOnce | src/runtime/runtime.rs:553-596 | Terminate is stored at most once in any run of the protocol |
| Handles.AfterCounted | src/trust/remote.rs:29-42 | clones and drops keep each Arc's count equal to the number of living handles that share it, and its runtime alive exactly as long |
| Handles.OneWorker | src/runtime/runtime.rs:81-91 | exactly one Runtime value holds the worker until it is dropped, and Terminate is sent then and never again |
| Handles.TerminateIffLastHandleGone | src/trust/remote.rs:49-58 | after `Remote::entrust`, over any clones and drops, Terminate has been sent if and only if no handle is left |
| Handles.SpawnTerminatesWithRuntime | src/runtime/runtime.rs:496-523 | after `Runtime::spawn` it is sent exactly when the caller drops the first runtime |
| Handles.SpawnedHandleMayOutlive | src/runtime/runtime.rs:496-523 | so it may be sent under a living handle |
| Handles.AliveIsUsable | src/trust/remote.rs:29-42 | no living handle has lost its Arc, so every clone and drop of one is possible |
| Ownership.TakerIsLast | src/runtime/runtime.rs:551-597 | whoever takes the worker is the first to, and with handles that own the runtime no handle is left |
| Ownership.RunProjects | src/runtime/runtime.rs:551-597 | any run of handles, reference counts and protocol together, with no guard on the drop of the runtime, is a run of the protocol: its guards hold by themselves |
| Ownership.TerminateOnlyWhenIdle | src/trust/remote.rs:49-58 | after `Remote::entrust` Terminate is registered if and only if the last handle is gone, and then no call or launch is outstanding |
| Ownership.TerminateOnce | src/runtime/runtime.rs:553-596 | however the runtime is owned, there is at most one channel for Terminate, and it stores one request |
| Slots.WordIsPair | src/runtime/slots.rs:28-43 | a flag word is a ready bit and a count; packing and unpacking are inverse, the count if and only if it is below 2^31 |
| Slots.CountIsTruncated | src/runtime/slots.rs:33-43 | a packed count reads back modulo 2^31 |
| Slots.NextBoundaryIsLeast | src/runtime/slots.rs:52-70 | the offset is the least aligned one from the cursor on that does not straddle byte 128, if and only if no addition wraps |
| Slots.WrapBreaksRule | src/runtime/slots.rs:52-70 | an input at which the addition wraps and the offset is below the cursor |
| SlotWriters.PlaceIsComputed | src/runtime/slots.rs:52-70 | for all layouts Rust allows the masked, wrapping computation is exact |
| SlotWriters.BoundaryRule | src/runtime/slots.rs:45-70 | in numbers, for every size below 2^63 and power of two up to 2^29: at or behind the cursor, aligned, `off + size <= 128` or `128 <= off`, and the least such offset |
| SlotWriters.AllocationsAreDisjoint | src/runtime/serialization.rs:102-122 | any sequence of successful allocations is ordered, disjoint, in bounds, and behind the cursor it began at |
| SlotWriters.SlotWriter.AllocAligned | src/runtime/serialization.rs:102-107 | the new cursor, a region on one side of byte 128, and failure exactly when its end is beyond byte 1152 |
| SlotWriters.SlotWriter.CopyIn | src/runtime/serialization.rs:118-122 | the bytes are in place, all others unchanged |
| SlotWriters.SlotWriter.WriteBytes | src/runtime/serialization.rs:118-122 | allocation and copy, or nothing written |
| Codec.HeaderRoundTrip | src/runtime/slots.rs:81-101 | a record header survives its bytes |
| Codec.HeaderLayout | src/runtime/slots.rs:74-90 | the header has 40 bytes, with every field at its C offset and least significant byte first |
| Codec.TagLayout | src/runtime/slots.rs:92-101 | the eight bytes of the six property tags |
| Records.EncodedParts | src/runtime/serialization.rs:233-288 | the returned header points at intact environment and argument bytes |
| Records.EncodeClosure | src/runtime/serialization.rs:233-288 | succeeds exactly when both parts fit, touches nothing before the cursor, and returns a header that describes the record, with both offsets |
| Records.CapacityExactly | src/runtime/slots.rs:15-19 | behind the first header, at alignments up to 16: an environment of up to 80 bytes starts at byte 48 and a larger one at 128, and the record fits if and only if its arguments, together with a larger environment, have at most 1024 bytes |
| Records.WriteRecord | src/trust/remote.rs:184-211 | the prologue all operations share: the whole record readable, or the slot unchanged up to the payload |
| Records.HeaderWritten | src/trust/remote.rs:210-211 | writing the header last completes the record |
| Records.FlagIsSeparate | src/trust/remote.rs:115-117 | the record does not depend on the flag bytes |
| Records.StoreWord | src/trust/remote.rs:113-117 | the word reads back and is the first four bytes, the rest is unchanged |
| Records.TrusteeRead | src/runtime/runtime.rs:219-232 | the trustee's own offset computation finds the record the slot holds |
| Records.Publish | src/trust/remote.rs:184-220 | after the flag store the trustee reads back exactly the record, with the opposite bit and count 1, if and only if it fits, in bytes too; if it does not fit, neither flag nor header was touched |
| SlotRuns.TrusteeDecodesRequest | src/runtime/runtime.rs:217-270 | in any run over real slots, whenever the trustee is at a record, up to the last execution, it decodes from the bytes the record of the client's own request, under the word it loaded |
| SlotRuns.FiberDecodesRequest | src/runtime/runtime.rs:296-376 | the copy of the record a fiber carries is still what the slot holds when the fiber runs it |
| SlotRuns.ExecutesDecoded | src/runtime/runtime.rs:235-376 | every execution in a run over real slots is the one the bytes then in the slot describe: tag, environment and argument bytes, run by the code behind the vtable |
| SlotRuns.CallGetsSlotBytes | src/runtime/runtime.rs:251-270 | a call with arguments runs its closure on the argument bytes the trustee finds in the slot |
| Bank.CreateKeepsExactly | examples/remote_complex.rs:39-53 | the new user has the given name and balance under the next, unused id and no other user changes; books stay consistent if and only if the id counter does not wrap |
| Bank.CreateMayWrap | examples/remote_complex.rs:39-53 | 2^64 - 2 creations from the empty bank keep the books consistent, and the next one breaks them |
| Bank.TransferKeeps | examples/remote_complex.rs:55-89 | a transfer keeps them always and the total never changes; accepted exactly when both users exist and the sender has the amount, it moves it from the sender to the receiver, leaves all else and logs one entry; refused, it changes nothing and says why |
| Bank.BankState.CreateUser | examples/remote_complex.rs:39-53 | the new state, the new user's name and balance, all others unchanged, and a fresh id |
| Bank.BankState.Transfer | examples/remote_complex.rs:55-89 | the new state and outcome account by account, and the refusals in the order the checks are made |
| Bank.BankStaysConsistent | examples/remote_complex.rs:39-89 | in every state of every concurrent run: total is the sum of balances, ids are distinct and below the next one, timestamps are 0, 1, 2, ..., and the next id counts the users created |
| Bank.BalanceIsAccounted | examples/remote_complex.rs:39-89 | in every state of every concurrent run an account has the name it was opened with, and its opening balance plus incoming minus outgoing amounts of the log |
| Bank.BalanceMovesByLog | examples/remote_complex.rs:55-89 | between any two states of a run each balance moves by exactly the transfers logged in between |
| Bank.IdsAreDistinct | examples/remote_complex.rs:39-53 | two creating executions of a history answer different ids |
| Bank.ReadIdsAreDistinct | examples/remote_complex.rs:39-53 | in any run of bank calls two reads of the replies to creating calls, by one client or two, read different ids |

## Left out

- Per-client fairness: the moving start index does not give it.
- Requests of several records: no client sends them, and the loop's cursor step does not skip a payload.
- Rust memory: drop of `T` after `into_inner`, `&mut T` beside `&T` during a launch, absolute alignment, code pointers (a vtable is an id).
- Weak memory beyond publication through the flag words; the queues, the fiber library and the serializer themselves.
- Panicking closures and the completion guard's part in them.
- Termination of the clients' wait loops: it needs fairness of the scheduler and of the scan.
- Batches.BatchIsIterate: with launches that change the value through interior mutability the batch is interleaved with them, and only Refinement.ValueIsFoldOfExecutions says what the value is.
- Workers.Worker.Scan: the words each visit loads and the kind of its record are parameters, since other threads write them; LoopRuns.ScanIsLoopScan says which occur.
- Shortcut.ShortcutIsDirect: closures that loop on values are not written as codes, only branches and batches; nested calls are those to the closure's own property; calls to other trustees are not part of this model, nor is an `into_inner` on a handle that does not own the runtime, which an assertion refuses.
- Bank.BankState.Transfer: balances are exact numbers, not f64, and error texts are an error datatype.
- `Local::launch`, `apply_then`, `launch_then`, formatting, the `Trust` wrapper, latches, wait budgets, pinning and thread ids.
