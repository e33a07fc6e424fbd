# Verification of the TLM-2.0 locking and snooping examples and of the MOESI cache simulator

This project models, in Dafny, the four stateful protocols of the repository and proves what they promise,
for any number of modules and over every run.

**The approximately-timed transport system** (`AtSystem` and the other `At` modules). Initiators of types A and B,
the AT interconnect and targets of types A to E are one state machine. A step is one activation of a SystemC
process together with all `nb_transport` calls nested in it. `notify()` adds an event to a set of pending
notifications, which a run of the process takes out. A payload event queue is a bag of timed phases that keeps the
order of one transaction's phases. Random delays are parameters of the steps; `minLatency` is the smallest latency
that the random generator of a target can give. The asserts and fatal reports of the source, and a release of a
transaction that has no references, set `failed`. A history that no transition reads records the stage of each
transaction, what passed each hop, and in what order requests and responses came and went.
`AtReferences` has the exact reference counts and `AtDelays` the exact times.
`AtModules.Platform` is the same system as an object with fields, whose methods follow the source's statements.

**The base-protocol checker** (`ProtocolChecker`, `PhaseGrammar`, `CheckerTimes`, `CheckerExclusion`, `CheckerPaths`,
`CheckerModules`): one instance on each hop, sharing the table of paths. Each of its checks of phases, direction, time,
exclusion and paths is proved exact against a definition that knows no state of the checker, and it is attached to every
hop of the transport system.

**The transaction pool** (`PoolSpec`, `GpMm`, `StickyMm`, `Extensions`): `gp_mm` as a heap of linked nodes against a
stack of free transactions and a set of those in use, and the two locking memory managers on top of it.

**The MOESI caches on their bus** (`CacheLines`, `Moesi*`, `CacheModules`): a step is what a cache does between two
points at which another cache may get the bus. `CacheModules` has the arrays and loops of the source.

**Write snooping, and load-link, store-conditional and locks** (`Snooping*`, `SnoopModules`, `Locking`, `StickyPool`,
`StickyUsers`).

## What turned out false

Each of these is proved by a run of the model, together with the exact condition under which the property holds.

- *BEGIN_REQ exclusion at an initiator of type B.* An END_REQ still in the initiator's event queue when the response
  completes the transaction later clears `req_in_progress` of a newer request
  (`locknsnoop/common/at_typeb_initiator.h:150-155`), so that the initiator sends a second BEGIN_REQ too early.
  `rand_ps()` returns 0 for five values in a hundred (`locknsnoop/common/common_header.h:52-57`).
  `AtExclusionLost.SilentIff`: the checkers report no breach of phase order, direction, exclusion, time or path in
  any run if and only if there is no initiator of type B, or no target of type A or B, or a positive least latency.
  No other breach of these rules is ever reported.
- *Every reference is released.* `end_req_process` returns early when the response that comes back has to wait in the
  response queue, and skips the release (`locknsnoop/common/at_interconnect.h:332-336`, `:359-363`).
  `AtReferences.ReturnsIff`: a transaction goes back to the pool if and only if it is over and no run of
  `end_req_process` has left it by these returns. `AtReferences.ReferencesCanBeStranded` has the run.
- *Plain initiators drop revoked DMI grants.* The loop that erases skips the element after each erased one
  (`locknsnoop/snooping_sticky/snooping.cpp:338-345`). `SnoopingSafety.EraseIsExact`: everything revoked is gone if
  and only if no two overlapping grants are adjacent. `SnoopingSafety.CacheCanBeStale`: from any initial state with a
  plain initiator four steps leave the snooping initiator with a stale cache it believes in.
- *Sticky extensions behave as auto extensions.* Freeing clears only `valid`. A user that does not set `id` gets the
  id of an earlier one (`StickyPool.StaleIdChangesDecision` has a run). `StickyPool.StepDecidesAlikeIff`: whatever
  users that set everything do next, both ways decide alike after a step if and only if nothing that the step has left
  unset differs from what a new extension holds.
- *No write is lost.* The first try to invalidate after a write hit does not look whether the copy is still valid
  (`src/assignment_1/Cache.h:152-165`), and a write that has just been filled does not either.
  `MoesiLostWrite.WritesCanBeLost` has a run of any system of two caches or more. `MoesiRaces.NoWriteIsLostIff`: a run
  loses a write if and only if some cache claims a line that another cache has written to since the first one last
  scanned its set or filled the way; a lost write never comes back. `MoesiRaces.NeverLostIff`: no run of a system loses
  a write if and only if it has one cache at most.
- *The address map of the interconnect can be undone.* A target number is shifted in 32 bits, so that numbers of 2^24
  and more lose bits (`AddressMap.RoundTripIff`).
- *The cache uses all its lines.* The set index is shifted by the width of a set but masked as if it were not; only
  the first 1024 of 8192 lines can ever be used (`CacheLines.SetsAreInBounds`).

## Model

| member | source | states |
|---|---|---|
| AtTheorems.NeverFails | locknsnoop/common/at_interconnect.h:101-196 | in no run is an assert or fatal report about phases, slots, queues or pending responses reached in interconnect, target or initiator, nor a transaction released without references (the assert of check_transaction on read data is left out) |
| AtTheorems.Exclusion | locknsnoop/common/at_interconnect.h:130-140 | in every run a target has at most one request not yet ended and an initiator at most one response |
| AtTheorems.NoLostWakeUp | locknsnoop/common/at_interconnect.h:283-292 | a taken slot is held by something not yet ended or its end event is pending; a non-empty queue has its slot taken |
| AtTheorems.ProcessesShorten | locknsnoop/common/at_interconnect.h:288-300 | a run of end_req_process or end_rsp_process on a non-empty queue takes its head and nothing else |
| AtTheorems.NeverStalls | locknsnoop/common/at_interconnect.h:225-262 | when no event of any kind is pending, every transaction has been completed, every slot, queue and target is empty, and no initiator has a request in progress for which its thread would wait |
| AtTheorems.Pipeline | locknsnoop/common/at_typeb_target.h:86-223 | types A and B: n_trans is queued internal events plus response in progress plus pending response, is at most 2, and END_REQ is held back only at 2 |
| AtTheorems.SingleRequest | locknsnoop/common/at_typed_target.h:86-97 | types C and D have at most one BEGIN_REQ, internal event or deferred response together, by the exclusion rule alone |
| AtTheorems.NeverRecycledWhileHeld | locknsnoop/common/at_interconnect.h:370-382 | a transaction with no references is in no queue, pending in no target, and open in no slot |
| AtTheorems.FirstComeFirstServed | locknsnoop/common/at_interconnect.h:294-300 | requests that came to a target are those forwarded followed by its queue, in order; the same for responses to an initiator |
| AtReferences.RefsAreExact | locknsnoop/common/at_interconnect.h:332-371 | in every run a transaction has one reference for its initiator, one for the queue it is in, one for the target that holds it, and one for each early return of end_req_process on it, and no other |
| AtReferences.ReturnsIff | locknsnoop/common/at_interconnect.h:370-382 | in every run a transaction has no references if and only if it is over and no early return has been taken on it |
| AtReferences.NeverReturns | locknsnoop/common/at_interconnect.h:332-336 | a transaction on which an early return has been taken never goes back to the pool, however the run goes on |
| AtReferences.ReferencesCanBeStranded | locknsnoop/common/at_interconnect.h:329-336 | any system without a least latency that has an initiator and a target of type D has a run that takes an early return |
| AtDelays.IssueTimes | locknsnoop/common/at_interconnect.h:101-196 | a BEGIN_REQ is queued with its annotated time or reaches its target at that time: A and C hold it until then, B runs it after accept delay and latency, D and E respond after a latency; what the target answers at once comes to the initiator, or waits for it, with exactly that time |
| AtDelays.QueuedRequestTimes | locknsnoop/common/at_interconnect.h:298-341 | the head of a request queue reaches its target at the time it was queued with, or now if that is over, and so do the answers |
| AtDelays.QueuedResponseTimes | locknsnoop/common/at_interconnect.h:395-410 | the head of a response queue reaches a type A initiator at the time it was queued with, or now if that is over |
| AtDelays.TakenRequestTimes | locknsnoop/common/at_typeb_target.h:172-188 | of the request that comes out of a target's queue, type C runs the internal event exactly one latency later, A and B send END_REQ after the accept delay and run it a latency after that, or hold the END_REQ back when the pipeline is full |
| AtDelays.ResponseTimes | locknsnoop/common/at_interconnect.h:231-262 | at the internal event the response is queued with the time now, or comes to a type A initiator exactly 1000 ps later |
| AtDelays.DeferredResponseTimes | locknsnoop/common/at_typed_target.h:125-157 | send_rsp_process sends at the time the kept response was due, or now if that is over, and the interconnect adds its delay |
| AtDelays.EndRespTimes | locknsnoop/common/at_typea_initiator.h:126-150 | END_RESP is with a target of type A, B or C exactly after the initiator's delay; D and E are done with the transaction at once |
| AtCheckers.OnlyRequestExclusion | locknsnoop/common/tlm2_base_protocol_checker.h:396-401 | of the phase, direction, exclusion, time and path rules the only one that any checker ever reports broken is request exclusion, by a type B initiator of a system at risk (reference count, attribute and 6.7 checks left out) |
| AtCheckers.SilentUnlessAtRisk | locknsnoop/common/tlm2_base_protocol_checker.h:367-434 | no checker ever reports a breach of the phase, direction, exclusion, time or path rules in a system that is not at risk |
| AtExclusionLost.SilentIff | locknsnoop/common/at_typeb_initiator.h:148-155 | no breach of those rules is reported in any run if and only if the system is not at risk |
| AtExclusionLost.RiskIsReal | locknsnoop/common/at_typeb_initiator.h:125-138 | every system at risk has a run in which the request exclusion rule is broken |
| AtCheckers.TracesConform | locknsnoop/common/at_typea_target.h:66-200 | on every hop every transaction goes through whole lifetimes of the base protocol and then the start of one |
| AtCheckers.TimesRise | locknsnoop/common/at_interconnect.h:302-305 | on every hop the annotated time never decreases within a lifetime, through both queues and deferred responses |
| AtCheckers.PathsAreStacks | locknsnoop/common/tlm2_base_protocol_checker.h:784-801 | the shared path is the initiator's hop and then the target's, and is empty when the pool may reuse the transaction |
| AtCheckers.EndReqIsSentOnce | locknsnoop/common/at_typeb_target.h:172-188 | types A and B have sent END_REQ for whatever they execute or defer a response of, and for no request before |
| AtEndReqs.EndReqBeforeEveryResponse | locknsnoop/common/at_typeb_target.h:172-223 | on the hop of a target of type A or B, in every run, the trace of every transaction is made of lifetimes and each response comes right after its BEGIN_REQ and its one END_REQ |
| AtEndReqs.EndRespReleases | locknsnoop/common/at_typeb_target.h:105-135 | END_RESP from a target's queue releases everything deferred: the response goes out first, on its hop before anything else, then END_REQ; nothing stays deferred |
| AtCheckers.OneRequestPerInitiator | locknsnoop/common/at_typea_initiator.h:76-92 | an initiator of a system not at risk has at most one request that has not been ended |
| AtSteps.StepKeeps | locknsnoop/common/at_interconnect.h:225-448 | any enabled step keeps the invariant of system and checkers, leaves nothing half done, and changes no count of references against their holders but by the early returns of end_req_process |
| AtSteps.RunKeeps | locknsnoop/common/at_interconnect.h:225-448 | so does any run |
| AtSteps.TakeReqKeeps | locknsnoop/common/at_typea_target.h:68-86 | BEGIN_REQ from a target's event queue keeps it, with END_REQ sent or deferred |
| AtSteps.TakeInternalKeeps | locknsnoop/common/at_typea_target.h:117-148 | the internal event keeps it, with the response sent or deferred |
| AtSteps.TakeEndRespKeeps | locknsnoop/common/at_typea_target.h:88-111 | END_RESP keeps it, with the nested deferred response and deferred END_REQ |
| AtSteps.DeferredResponseKeeps | locknsnoop/common/at_typed_target.h:125-157 | send_rsp_process keeps it; its assert holds |
| AtSteps.IssueKeeps | locknsnoop/common/at_typea_initiator.h:76-112 | a BEGIN_REQ from a thread keeps it, whatever the target replies |
| AtSteps.InitCallbackKeeps | locknsnoop/common/at_typea_initiator.h:126-150 | the initiators' callbacks keep it |
| AtSteps.EndReqProcessKeeps | locknsnoop/common/at_interconnect.h:283-373 | end_req_process keeps it through both early returns, and strands exactly the reference that these skip |
| AtSteps.EndRspProcessKeeps | locknsnoop/common/at_interconnect.h:384-415 | end_rsp_process keeps it, and drops exactly the reference of its queue |
| AtKeeps.ForwardKeeps | locknsnoop/common/at_interconnect.h:315-360 | BEGIN_REQ to a target of any type keeps the invariant and the reply tells the stage of the transaction |
| AtCallbacks.ShiftKeeps | locknsnoop/common/at_typeb_target.h:93-103 | any move of a transaction inside its target that conserves the pipeline's count keeps the invariant |
| AtCallbacks.EndsKeeps | locknsnoop/common/at_typeb_target.h:105-116 | the end of a response at its target keeps the invariant |
| AtCallbacks.NoSecondDeferral | locknsnoop/common/at_typeb_target.h:158-164 | an internal event never finds a response in progress and another pending |
| AtOrder.EndReqProcessFlow | locknsnoop/common/at_interconnect.h:288-300 | end_req_process sends the head of the queue on, or frees the slot |
| AtOrder.RunInOrder | locknsnoop/common/at_interconnect.h:127-138 | order and conservation hold in every run |
| AtWatchMoves.ForwardGood | locknsnoop/common/at_typed_target.h:84-103 | a forwarded request keeps the checkers' knowledge true and comes no earlier than it was queued |
| AtWatchQueues.SendEndReqGood | locknsnoop/common/at_typeb_target.h:172-188 | END_REQ passes both hops in order, and clears the way before the response |
| AtWatchInits.DeliverToBGood | locknsnoop/common/at_typeb_initiator.h:125-138 | BEGIN_RESP to a type B initiator and its TLM_COMPLETED are in order on its hop |
| AddressMap.RoundTripIff | locknsnoop/common/at_interconnect.h:450-466 | decoding undoes reconstructing if and only if the target number is below 2^24; reconstructing undoes decoding if and only if, besides, the address does not wrap around |
| AtModules.Platform.constructor | locknsnoop/common/at_interconnect.h:45-83 | any choice of initiators, targets and least latency gives a valid initial state |
| AtModules.Platform.Step | locknsnoop/common/at_interconnect.h:101-448 | any process that may run keeps the object valid and does what the state machine says |
| AtModules.Platform.TargetBeginReq | locknsnoop/common/at_typeb_target.h:62-84 | any target takes BEGIN_REQ: A and C queue it, B starts it with END_REQ while its pipeline has room and queues it otherwise, D responds at once or keeps the response under its assert, E completes; reply and whole new state (payload checks left out) |
| AtModules.Platform.TargetEndResp | locknsnoop/common/at_typed_target.h:105-123 | any target takes END_RESP: A to C queue it, D drops its reference and response and schedules a kept one, E completes; reply and whole new state |
| AtModules.Platform.InitPosts | locknsnoop/common/at_typea_initiator.h:116-123 | the phase goes into the event queue of the initiator at its annotated time and nothing else changes |
| AtModules.Platform.InitCompletes | locknsnoop/common/at_typeb_initiator.h:125-138 | type B drops its reference, clears req_in_progress only if it is of this transaction, and completes (check_transaction left out) |
| AtModules.Platform.NotifyEndReq | locknsnoop/common/at_interconnect.h:154-158 | the end of the request is pending, and that the slot is taken has been asserted |
| AtModules.Platform.NotifyEndRsp | locknsnoop/common/at_interconnect.h:147-148 | the end of the response is pending, and that the slot is taken has been asserted |
| AtModules.Platform.SendReqFw | locknsnoop/common/at_interconnect.h:150-158 | the slot of the target is taken anew and BEGIN_REQ sent; TLM_UPDATED and TLM_COMPLETED end the request, and TLM_COMPLETED stops later propagation |
| AtModules.Platform.QueueTheReq | locknsnoop/common/at_interconnect.h:127-138 | the request is last in the queue of its target, with the time it came at and one reference more |
| AtModules.Platform.QueueTheRsp | locknsnoop/common/at_interconnect.h:375-382 | the response is last in the queue of its initiator, with the time it came at and one reference more |
| AtModules.Platform.SendEndRespFw | locknsnoop/common/at_interconnect.h:439-447 | END_RESP goes to the target of the route and its reply comes back, unless the target has completed the transaction |
| AtModules.Platform.SendBwToInitiator | locknsnoop/common/at_interconnect.h:417-448 | the response slot is taken anew and BEGIN_RESP delivered; if the initiator completes, the target gets END_RESP and must not reply TLM_UPDATED |
| AtModules.Platform.NbTransportBwEndReq | locknsnoop/common/at_interconnect.h:225-265 | END_REQ ends the request in the interconnect and is queued with the initiator of the route, which is asserted to be there |
| AtModules.Platform.NbTransportBwBeginResp | locknsnoop/common/at_interconnect.h:225-265 | BEGIN_RESP ends a request that END_REQ has not ended; it is delivered if the response slot of the initiator is free and queued otherwise; a completion goes back to the target |
| AtModules.Platform.SendEndReq | locknsnoop/common/at_typeb_target.h:172-188 | END_REQ goes out after the accept delay, the internal event is queued a latency later, and the pipeline holds one more |
| AtModules.Platform.SendResponse | locknsnoop/common/at_typeb_target.h:190-223 | the target is responding and the response goes out; if the initiator completes it, the reference is dropped, the pipeline holds one less and a kept END_REQ is sent |
| AtModules.Platform.TargetPeqCb | locknsnoop/common/at_typeb_target.h:86-170 | the first event of the transaction is taken out and decides: a request is accepted or held back, an end of response or an internal event handled, anything else fails |
| AtModules.Platform.PeqEndResp | locknsnoop/common/at_typeb_target.h:105-130 | the response ends, then a kept response is sent, then a kept END_REQ |
| AtModules.Platform.PeqInternal | locknsnoop/common/at_typeb_target.h:156-167 | the response is sent, or kept while another is in progress, none being kept already by assert |
| AtModules.Platform.SendRspProcess | locknsnoop/common/at_typed_target.h:125-157 | the kept response of type D goes out with the time it has left; that there is one is asserted |
| AtModules.Platform.ThreadAllocates | locknsnoop/common/at_typea_initiator.h:62-66 | the initiator holds the transaction, with one reference |
| AtModules.Platform.ThreadIssues | locknsnoop/common/at_typea_initiator.h:76-112 | BEGIN_REQ is queued if the slot of the target is taken, else forwarded, and the reply acted on (check_transaction left out) |
| AtModules.Platform.ReplyToInitiator | locknsnoop/common/at_interconnect.h:152-196 | END_REQ in the reply goes back to the thread; a response does only while the response slot of the initiator is free, and is queued otherwise |
| AtModules.Platform.InitPeqCb | locknsnoop/common/at_typea_initiator.h:126-150 | END_REQ clears req_in_progress of whatever transaction, BEGIN_RESP only its own; then END_RESP is sent and the reference dropped (check_transaction left out) |
| AtModules.Platform.NbTransportFwEndResp | locknsnoop/common/at_interconnect.h:141-152 | END_RESP ends the response in the interconnect, slot and route being asserted, and goes on to the target |
| AtModules.Platform.EndReqProcess | locknsnoop/common/at_interconnect.h:283-373 | the head of the request queue is forwarded with the time it has left, or the slot is freed when the queue is empty |
| AtModules.Platform.AfterReply | locknsnoop/common/at_interconnect.h:322-372 | without a response, or with one delivered, the reference is dropped; a response that is queued keeps it |
| AtModules.Platform.EndRspProcess | locknsnoop/common/at_interconnect.h:384-415 | the head of the response queue is delivered with the time it has left and its reference dropped, or the slot is freed when the queue is empty |
| PhaseGrammar.CheckerIsExact | locknsnoop/common/tlm2_base_protocol_checker.h:381-424 | no sequence or direction error for a transaction on a hop if and only if its trace is a number of lifetimes and the start of one |
| PhaseGrammar.AcceptedIsConforming | locknsnoop/common/tlm2_base_protocol_checker.h:558-603 | the checker's phase variable decides the grammar |
| CheckerTimes.TimeIsExact | locknsnoop/common/tlm2_base_protocol_checker.h:426-433 | no decreasing time is reported if and only if the times rise within every lifetime |
| CheckerExclusion.RequestExclusionIsExact | locknsnoop/common/tlm2_base_protocol_checker.h:396-401 | 7.2.4 b) is reported for a transaction on a hop if and only if some BEGIN_REQ of it follows a BEGIN_REQ on that hop with nothing between them that ends the request: no END_REQ, no BEGIN_RESP of the same transaction, no TLM_COMPLETED forward |
| CheckerExclusion.ResponseExclusionIsExact | locknsnoop/common/tlm2_base_protocol_checker.h:590-595 | 7.2.4 c) is reported if and only if some BEGIN_RESP follows a BEGIN_RESP on that hop with no END_RESP and no TLM_COMPLETED backward between them |
| CheckerPaths.StillRespondingIsExact | locknsnoop/common/tlm2_base_protocol_checker.h:696-700 | 6.5 is reported if and only if some BEGIN_REQ of the transaction comes while an earlier response of it has passed some but not all of the hops of its request |
| CheckerPaths.PathNotReversedIsExact | locknsnoop/common/tlm2_base_protocol_checker.h:784-801 | 7.2.5 m-n) is reported if and only if some response passes another hop than the innermost one not yet passed back |
| CheckerModules.Checkers.FwPreChecks | locknsnoop/common/tlm2_base_protocol_checker.h:367-434 | BEGIN_REQ and END_RESP out of sequence, a second open request, any other phase forward and a decreasing time are reported; phase, time, path and flags are those of the specification (reference count, memory manager and b_transport checks left out) |
| CheckerModules.Checkers.ResponseChecks | locknsnoop/common/tlm2_base_protocol_checker.h:545-614 | END_REQ and BEGIN_RESP out of sequence, a second open response, any other phase backward and a decreasing time are reported (each exactly when it happens, by the theorems on the specification), and flags, phase, time and path follow (the 6.7 check left out) |
| CheckerModules.Checkers.BwPostUpdated | locknsnoop/common/tlm2_base_protocol_checker.h:489-527 | with TLM_UPDATED, END_RESP out of sequence, any other phase and a decreasing time are reported and the response flag is cleared (the not-modified check left out) |
| CheckerModules.Checkers.BwPostCompleted | locknsnoop/common/tlm2_base_protocol_checker.h:528-532 | with TLM_COMPLETED the response flag is cleared and the phase forgotten |
| CheckerModules.Checkers.CheckInitialState | locknsnoop/common/tlm2_base_protocol_checker.h:617-702 | a transaction whose response is still on its way is reported, and the hop goes on its path (attribute checks and the copy of the payload left out) |
| CheckerModules.Checkers.CheckResponsePath | locknsnoop/common/tlm2_base_protocol_checker.h:784-813 | a response that does not come by the last hop of its path is reported, and that hop goes off the path (ok_response and the copy of the data left out) |
| CheckerModules.Checkers.See | locknsnoop/common/tlm2_base_protocol_checker.h:186-216 | the maps and flags are at any time what all events so far have made of them |
| GpMm.MemoryManager.Allocate | locknsnoop/common/gp_mm.h:81-95 | the top of the stack of free transactions, or a new one; never one in use; the list stays linked |
| GpMm.MemoryManager.Free | locknsnoop/common/gp_mm.h:97-111 | the transaction goes on top of the stack without auto extensions; a node is made only when none is spare |
| GpMm.MemoryManager.NodesAreBounded | locknsnoop/common/gp_mm.h:68-78 | there are never more nodes than transactions |
| PoolSpec.RunIsSound | locknsnoop/common/gp_mm.h:81-111 | over any run nothing is handed out twice and every transaction made is free or in use |
| PoolSpec.NestingRestores | locknsnoop/common/gp_mm.h:81-111 | properly nested use leaves the stack as it was, above what had to be made |
| StickyMm.LockManager.Allocate | locknsnoop/locking_sticky/lock_extension.h:87-101 | a transaction with a lock extension, not valid, the old one if there is one |
| StickyMm.LockManager.Free | locknsnoop/locking_sticky/lock_extension.h:103-112 | back to the pool with the lock extension kept and not valid; no free transaction has a valid extension if and only if the load-link extension was not valid either |
| StickyMm.LoadLinkManager.Allocate | locknsnoop/locking_sticky/lock_extension.h:158-172 | the same for the load-link extension |
| StickyMm.LoadLinkManager.Free | locknsnoop/locking_sticky/lock_extension.h:174-183 | the same for the load-link extension |
| StickyPool.FreeMeansInvalid | locknsnoop/locking_sticky/lock_extension.h:103-112 | over every run a free or plainly used transaction has no valid locking extension |
| StickyPool.StepMatchesIff | locknsnoop/locking_sticky/load_link_interconnect.h:90-120 | sticky and auto decide alike now, and hold the same afterwards if and only if nothing left unset differs from new |
| StickyPool.StepDecidesAlikeIff | locknsnoop/locking_sticky/lock_interconnect.h:90-133 | after a step the two decide alike in every continuation whose users set everything if and only if nothing the step left unset differs from new |
| StickyPool.RunMatches | locknsnoop/locking_sticky/load_link_interconnect.h:90-120 | over any run in which that holds at every step, all decisions are the same |
| StickyPool.StickyDecidesAsAuto | locknsnoop/locking_auto/load_link_interconnect.h:90-120 | so they are for users that set lock and cmd and all set an id or none does |
| StickyPool.StaleIdChangesDecision | locknsnoop/locking_sticky/lock_interconnect.h:109-121 | a run in which a stale id makes the sticky interconnect decide otherwise |
| StickyUsers.AutoSeesItsUsers | locknsnoop/locking_auto/lock_interconnect.h:90-133 | in every run both interconnects see of each transaction in use what its user has set, and their maps are those of the history of all such accesses |
| StickyUsers.StickyLockForwardedIff | locknsnoop/locking_sticky/lock_interconnect.h:90-133 | with nothing stale left unset, a sticky transaction is forwarded if and only if no lock that a user has taken and nobody entitled has taken off stands in its way |
| StickyUsers.StickyLinkForwardedIff | locknsnoop/locking_sticky/load_link_interconnect.h:90-120 | and the load-link interconnect refuses it if and only if its user means STORE_CONDITIONAL and no link of a user stands on the address |
| Locking.StoreConditionalSucceedsIff | locknsnoop/locking_sticky/load_link_interconnect.h:98-119 | it succeeds exactly when some earlier LOAD_LINK is followed by no plain write and no successful STORE_CONDITIONAL |
| Locking.LinkForwardedIff | locknsnoop/locking_sticky/load_link_interconnect.h:90-120 | any access, marked or plain, passes if and only if it is not a STORE_CONDITIONAL of an address on which no link stands in the history |
| Locking.LinkHistory | locknsnoop/locking_sticky/load_link_interconnect.h:98-119 | the map is set at an address exactly when such a LOAD_LINK stands |
| Locking.LockHistory | locknsnoop/locking_sticky/lock_interconnect.h:97-123 | the map and the id are those of the one lock that is held |
| Locking.ForwardedIff | locknsnoop/locking_sticky/lock_interconnect.h:97-132 | which accesses pass, in terms of the history only |
| Locking.MutualExclusion | locknsnoop/locking_sticky/lock_interconnect.h:97-132 | between a lock that passed and its unlock no other lock or plain access to the address is forwarded |
| Locking.LoadLinkInterconnect.Check | locknsnoop/locking_sticky/load_link_interconnect.h:90-120 | LOAD_LINK sets the address, a successful STORE_CONDITIONAL or a plain write clears it, and only a STORE_CONDITIONAL of an address that is not set is refused |
| Locking.LockInterconnect.Locked | locknsnoop/locking_sticky/lock_interconnect.h:90-133 | a lock of a free address takes it with its id; at a taken address only an unlock of the same id, or of an anonymous lock, passes and frees it |
| CacheLines.SetsAreInBounds | src/assignment_1/Cache.h:57-59 | sets are disjoint and in bounds, and all within the first 1024 lines |
| CacheLines.PlaceIsInjective | src/assignment_1/Cache.h:57-72 | set and tag tell the 32-byte line and nothing finer |
| CacheLines.WriteBackIsExact | src/assignment_1/Cache.h:198 | the address rebuilt from a tag is the start of the victim's own line |
| CacheLines.FoundIsLast | src/assignment_1/Cache.h:123-127 | the scan finds the last matching way |
| CacheLines.ChooseIsOldest | src/assignment_1/Cache.h:121-134 | the scan's victim is the last invalid way, else the first of the smallest counter |
| MoesiSafety.Coherence | src/assignment_1/Cache.h:76-85 | in every run a line MODIFIED or EXCLUSIVE in one cache is in no other, and only one cache owns it |
| MoesiSafety.OneWayPerLine | src/assignment_1/Cache.h:123-137 | in every run a cache has a line in one way at most |
| MoesiSafety.WritesBackItsOwnLine | src/assignment_1/Cache.h:196-211 | in every run a write-back goes to the victim's own address |
| MoesiSafety.StepKeeps | src/assignment_1/Cache.h:92-260 | every step of every cache keeps coherence |
| MoesiLru.CountersTellAge | src/assignment_1/Cache.h:135-141 | in every run a counter is the bound less the scans of its set since its last use, and not less than 0 |
| MoesiLru.EvictsLeastRecentlyUsed | src/assignment_1/Cache.h:121-134 | in every run the way that a miss gives up is invalid, else the least recently used one unless its counter has run out |
| MoesiData.ReadsSeeTheLastWrite | src/assignment_1/Bus.h:106-130 | as long as no write goes to an invalidated copy, every copy is of the last write and no write is lost |
| MoesiLostWrite.WritesCanBeLost | src/assignment_1/Cache.h:152-165 | any system of two caches or more has a run after which a write is in no cache and not in memory |
| MoesiRaces.NoWriteIsLostIff | src/assignment_1/Cache.h:152-165 | after any run all copies are of the last write and memory is behind a dirty copy only, if and only if no cache made a claim after another had written to the line since its own last scan or fill |
| MoesiRaces.StaysLost | src/assignment_1/Cache.h:139-187 | once everything that can still be read or written is behind the last write to a line, no continuation makes up for it |
| MoesiRaces.NeverLostIff | src/assignment_1/Cache.h:152-165 | no run of a system loses a write if and only if it has one cache at most |
| MoesiReads.ReadEndsIff | src/assignment_1/Cache.h:175-187 | in every run a read hit ends half a cycle later if and only if its copy is still there, and is looked up again otherwise |
| MoesiReads.ReadsReturnTheLastWrite | src/assignment_1/Cache.h:175-187 | in a run in which no overtaken cache makes its claim, every read that ends, by a hit or a fill, returns the last write to its line |
| MoesiReads.LookHitsIff | src/assignment_1/Cache.h:119-139 | in every run a lookup hits if and only if the cache has the line, and goes on with the way that holds it |
| MoesiReads.WriteEndsIff | src/assignment_1/Cache.h:152-165 | in every run a write ends if and only if a claim is granted and, after a refusal, the copy is still there; if it has gone the line is looked up or filled again |
| MoesiReads.FillLeaves | src/assignment_1/Cache.h:226-250 | a miss leaves the line SHARED if and only if another cache has it, else EXCLUSIVE after a read and MODIFIED after a write; every other way anywhere holds what it held |
| MoesiReads.FillShares | src/assignment_1/Bus.h:202-208 | a READ makes every dirty copy elsewhere OWNED and every other SHARED |
| MoesiReads.ClaimLeaves | src/assignment_1/Cache.h:152-165 | a granted claim leaves a MODIFIED copy that is the only one, and takes no other line from any cache |
| MoesiReads.VictimLeaves | src/assignment_1/Cache.h:195-213 | a victim goes without the bus if it is not dirty; a dirty one goes when the write-back gets the bus, which takes that line and no other from all other caches |
| MoesiReads.TurnsEnd | src/assignment_1/Cache.h:117-250 | every turn in which a cache gets the bus brings its request nearer to its end |
| MoesiReads.RequestStays | src/assignment_1/Cache.h:95-118 | a cache works on what the processor has asked for until that has ended by the end of a read hit, a claim or a fill |
| CacheModules.SingleCache.Scan | src/assignment_1/Cache.h:120-137 | the loop over the set finds the last matching way and the victim, and ages every other way in place |
| CacheModules.SingleCache.Snooping | src/assignment_1/Cache.h:61-89 | the way found is invalidated or shared as the request asks, and no other way changes |
| CacheModules.Bus.Tenure | src/assignment_1/Bus.h:132-151 | every cache but the requester has snooped the request, and the requester is as before |
| CacheModules.Bus.Step | src/assignment_1/Cache.h:92-260 | any turn of any cache leaves the arrays sound and the system in the state that the state machine gives |
| CacheModules.Bus.Use | src/assignment_1/Cache.h:139-187 | a hit makes the way the latest used; a read goes on and a write tries for the bus without another look at the state |
| CacheModules.Bus.Claim | src/assignment_1/Bus.h:221-238 | granted, this copy is MODIFIED and all others of the line are invalid; refused, the way is remembered and nothing else changes |
| CacheModules.Bus.Evict | src/assignment_1/Cache.h:196-212 | a dirty victim is written back to its own address before the way is given up; a refused try is remembered |
| CacheModules.Bus.Fill | src/assignment_1/Cache.h:219-248 | the way holds the line, SHARED if another cache answered, else MODIFIED or EXCLUSIVE, and the others have snooped the READ |
| CacheModules.Bus.AnyAnswer | src/assignment_1/Bus.h:192-219 | true exactly when another cache has the line |
| Snooping.AddressRoundTrip | locknsnoop/snooping_sticky/snooping.cpp:456-466 | the address map and its inverse |
| SnoopingSafety.EraseIsExact | locknsnoop/snooping_sticky/snooping.cpp:335-346 | all revoked grants are gone if and only if no two were adjacent; the others stay in order |
| SnoopingSafety.SnoopIsSafeIff | locknsnoop/snooping_sticky/snooping.cpp:547-599 | asking for the region again is safe if and only if no table has a read grant followed by a write grant for it |
| SnoopingSafety.NeverStale | locknsnoop/snooping_sticky/snooping.cpp:169-193 | while the cache is believed in, it equals the snooped bytes, the region is watched and no write grant is left |
| SnoopingData.ReadsGetTheLastWrite | locknsnoop/snooping_sticky/snooping.cpp:518-529 | in every run a read, regular or through a grant, gets what the last write to its address has put there, byte for byte |
| SnoopingData.CaughtIff | locknsnoop/snooping_sticky/snooping.cpp:531-536 | a write is caught if and only if one of its bytes is snooped |
| SnoopingData.SnoopEndsIff | locknsnoop/snooping_sticky/snooping.cpp:531-536 | in every run the snooping initiator stops trusting its cache exactly at a write to a byte of its region |
| SnoopingSafety.CacheCanBeStale | locknsnoop/snooping_sticky/snooping.cpp:338-345 | four steps to a stale cache from any initial state |
| SnoopModules.MemoryModule.BTransport | locknsnoop/snooping_sticky/snooping.cpp:498-544 | a regular access with its errors; a read gets the four bytes, a write puts exactly those four there and is caught if the region is snooped |
| SnoopModules.MemoryModule.GetDirectMemPtr | locknsnoop/snooping_sticky/snooping.cpp:547-599 | a read with a valid snoop extension sets up the snoop unless it starts inside a word, a write with one is reported and changes nothing, and a regular grant is refused only for writes under a snoop |
| SnoopModules.Initiator.InvalidateDirectMemPtr | locknsnoop/snooping_sticky/snooping.cpp:335-346 | the loop that erases, as it is |
| SnoopModules.Initiator.Lookup | locknsnoop/snooping_sticky/snooping.cpp:251-275 | the first grant that allows the access |

## Left out

- The SystemC kernel, sockets, `sc_time` formatting, logging and the random generator; times are naturals and delays arbitrary.
- `Initiator`, `Target` of the transport system are records in two dictionaries of one object, not objects of their own, so aliasing between modules is not captured.
- AtTheorems.NeverStalls: is about states in which nothing is pending; that the kernel runs what is pending is not part of this model.
- AtDelays.QueuedResponseTimes: is about initiators of type A; type B completes at once and posts no event.
- AtDelays.ResponseTimes: is about responses that are queued or go to an initiator of type A; type B completes at once and posts no event.
- AtDelays.DeferredResponseTimes: is about the same responses only.
- AtDelays.QueuedRequestTimes: leaves out a response that an initiator of type B completes at once.
- AtCheckers.OneRequestPerInitiator: is about requests not yet ended in the interconnect or target; the checker's own flag is cleared by any TLM_COMPLETED and is not claimed to be complete.
- Payload data, byte enables and lengths in the transport system: the payloads are those the initiators build, so the error returns of the targets are not reached.
- `decode_address` is modelled apart from the transport system, where a request names its target; the AND, OR and shifts of addresses are arithmetic on naturals.
- AtTheorems.NeverFails: leaves out the assert on read data in `check_transaction` of the initiators, as the model carries no payload data.
- AtCheckers.OnlyRequestExclusion: is about the phase, direction, exclusion, time and path rules; reports of the reference count, attribute and 6.7 checks are left out.
- AtCheckers.SilentUnlessAtRisk: is about the same rules only.
- AtExclusionLost.SilentIff: is about the same rules only.
- AtModules.Platform.TargetBeginReq: leaves out the error returns for byte enables, length and width.
- AtModules.Platform.InitCompletes: leaves out `check_transaction`.
- AtModules.Platform.ThreadIssues: leaves out `check_transaction`.
- AtModules.Platform.InitPeqCb: leaves out `check_transaction`.
- CheckerModules.Checkers.ResponseChecks: leaves out the 6.7 check.
- CheckerModules.Checkers.BwPostUpdated: leaves out the check that the transaction has not been modified.
- CheckerModules.Checkers.CheckResponsePath: leaves out `ok_response` and the copy of the data.
- CheckerModules.Checkers.FwPreChecks: leaves out the reference count, memory manager, attribute and `b_transport` checks (6.5, 6.6, 7.2.5 k).
- CheckerModules.Checkers.CheckInitialState: leaves out the attribute checks and the copy of the payload taken for later comparison.
- `check_trans_not_modified`, DMI, debug and blocking transport through interconnect and checker.
- The destructor of `gp_mm`, which walks `empties` by `next` and does not free the whole list.
- The threads of `lock_lt_initiator.h`: the interconnects are given arbitrary traces instead.
- `locking_two`, a third encoding of the same decision; `lock_lt_target.h` and `dump_extensions.h`.
- MoesiSafety.Coherence: READ, the answers and the fill of a miss are one step, so overlapping misses in the REQUESTED state, bus priority flags and signal timing are not captured.
- MoesiData.ReadsSeeTheLastWrite: the source moves no data; the versions are a history of what its states stand for.
- `Memory.h` latencies, trace files, statistics, `CPU.h`, the tutorials and top-level wiring.
- SnoopingSafety.NeverStale: assumes that revoked write grants go; there is one snooping initiator and its region lies in one memory.
- The quantum keeper and temporal decoupling in `snooping.cpp`.
