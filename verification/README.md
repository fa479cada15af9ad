# Verified models of the Gas City protocols and tools

Dafny models of the parts of this repository where order, crashes or byte arithmetic decide
whether the code is right, with proofs about every input, every run or every reachable state.

Check everything with `dafny verify dfyconfig.toml`.

## What is modelled

**Ingress delivery** (`discord/scripts/discord_gateway_service.py`). A Discord message is claimed
as a stored receipt; its targets are written "pending" and moved through "submitting" and
"awaiting_result" to an end state, each move persisted first.

- `IngressDelivery` has the step machine of one `resume_ingress_delivery` call (a step is what
  happens between two durable effects) and the loop itself as a class method over the store. The
  method is tied to the machine through its journal of saves and posts, and to a closed form of
  what each target becomes. A crash inside the call leaves the effects of a prefix of such a run.
- `IngressProtocol` is the transition system over store, handlers in flight and submissions log:
  claims, the double-checked reclaim, per-ingress locks, delivery steps, recovery passes, expiry of
  old receipts, pruning and crashes, interleaved at will. Nothing about ages is assumed: any
  retriable receipt may be reclaimed, and any receipt pruned, at any moment. `Timely` is the one
  assumption made where it is needed, that nobody still works on a receipt that is taken over or
  pruned; it is a condition on single steps.
- `IdempotencyKeys` and `IngressDedup` are about the keys and a receiver that deduplicates by them,
  `IngressRetry` about when a message is posted a second time. `IngressRuns` builds runs step by step.

**WebSocket client** (same file). `WebSocketFrames` is RFC 6455 framing on bytes (sections 5.2 and
5.3), `WebSocketClient` the reassembly of messages (sections 5.4, 5.5.2 and 5.5.3) and the client class over a
socket that delivers its stream in arbitrary chunks behind an arbitrary initial buffer.

**Gateway worker** (same file). `GatewayQueue` is the machine of dispatcher, worker threads, the
stop event a signal handler sets, and the stop protocol, `GatewayWorker` the worker's own code with every queue operation matched to a step
of that machine, `GatewayReconnect` the reconnect loop.

**`/gc fix` requests** (`discord/scripts/discord_intake_service.py`). `FixLifecycle` is the machine
of reservation, request threads, crashes and start-up recovery over the stored requests, workflow
links and receipts. `FixService` is the service's code over those files; each write is matched with
one step of the machine.

**Tools.** `RunClosure` (`profiler/scripts/profile_collect.py`), `BaseRefLint` and
`BaseRefExit` and `BaseRefValues` (`scripts/gascity_pack_inference_gate.py`), with `BaseRefShipped` for the block that lint
guards (`gastown/assets/scripts/polecat-workspace.sh`), `ContentManifest` and `ContentCollision`
(`validate_registry.py`),
`RegistryLines` and `RegistryWithdraw` (`scripts/registry_release.py`), `ImportBindings`
(`scripts/pack_release_compat.py`), `RuleMatching` (`github/scripts/github_intake_common.py`),
`RoutingOrder` (the routing order of the gateway service). `Text` has Python's string order, `sorted`,
`split` and decimal numbers; `Wrappers` has the result types.

## Where the code falls short of the stated aim

Each of these is a lemma with the input that shows it, next to the condition under which the aim holds.

- Two different ingress ids can share an idempotency key exactly when one continues the other with
  `:target` or `:target:…` (`IdempotencyKeys.KeysCanCollide`). Ids made from numeric message ids and valid app
  names contain no colon, so it cannot happen for them.
- A claimant that was merely slow, not dead, resets a delivered receipt and posts again
  (`IngressDedup.SlowClaimantResends`). Only the idempotency key protects the session then.
  While nobody is in its delivery loop, a message that is not pending can be posted to a session again by a timely
  run exactly when some handler still holds an old claim on it, or its status is one a retry may take over, or
  it has no receipt any more (`IngressRetry.SettledCanPostAgain`).
- A retry of a "partial_failed" receipt posts again to sessions that were already served, with the same
  key (`IngressRetry.PartialFailureResends`; exactly when: `IngressRetry.SettledCanPostAgain`). Over timely runs a
  second post needs a completed retry or a pruned receipt (`IngressRetry.RepeatedPostNeedsRetry`). The at-most-once
  property therefore belongs to the deduplicating receiver, and is stated there
  (`IngressDedup.AcceptedOncePerSession`).
- A message whose receipt has been pruned is new to the service: it can be posted to any session again
  (`IngressRetry.AbsentIsPosted`, one such run: `IngressRetry.PrunedIsSentAgain`). Until then a
  concluded one is never sent again (`IngressProtocol.ConcludedForever`).
- If the except block of `process_request` is itself left by an exception, the finally block may give
  the workflow link back while the stored request still reads as live
  (`FixLifecycle.FailedReportSharesConversation`, exactly when: `FixLifecycle.ReportFailureCase`). A request file that
  cannot be read when its thread starts has the same effect (`FixLifecycle.UnreadRequestSharesConversation`). Exactly
  which steps take a live request's link away: `FixLifecycle.LosesLinkExactlyWhen`.
- A message past its stop check when `stop` drains the queue can be put behind the last sentinel and
  stay there, neither handled nor rejected (`GatewayQueue.MessageCanBeStranded`): what is left when all workers
  have ended is exactly what was put after the last sentinel (`GatewayQueue.StrandedAreLatePuts`).
- A READY event without a sequence number of its own, one refused because it names another user, or a
  number that arrives before READY lets the next RESUME pair a session with another session's number
  (`GatewayReconnect.ReadyWithoutNumberMixes`, exactly when: `GatewayReconnect.SoundExactlyWhenKept`). A gateway
  that numbers every READY and names the configured user is safe (`GatewayReconnect.NumberedReadysSuffice`).
- The base-ref lint looks at the text of the assignments to BASE_REF, not at what that text comes to: a block that
  says `BASE_REMOTE=main` before `BASE_REF="$BASE_REMOTE"` passes and ends with a base nobody probed
  (`BaseRefValues.AcceptedBlockCanSubstitute`, `BaseRefValues.MainSubstitutes`). Exactly when BASE_REF always ends as it was or
  as one of the probed refs was: `BaseRefValues.ProbedExactlyWhenKept`; an accepted block that leaves the two
  names alone is safe (`BaseRefValues.AcceptedBlockAssignsProbedRefs`).
- The base-ref lint keeps the else arm from falling through, but not from leaving well: an arm that says `exit 0`
  before its stop line passes (`BaseRefExit.AcceptedBlockCanExitZero`), and so does one whose exit is `exit 00` or
  `exit 256` (`BaseRefExit.AcceptedBlockCanDisguiseZero`). Nor does an exit have to be reached: at a line like `UID=5`
  or `echo ${}` bash gives up the block and goes on behind it (`BaseRefExit.AcceptedBlockCanBeAbandoned`). Exactly when
  an accepted block always exits: `BaseRefExit.AcceptedBlockExits`; always with a failing status:
  `BaseRefExit.AcceptedBlockFails`. The block the repository ships does (`BaseRefShipped.ShippedBlockFails`).
- A path with a newline in it can stand for two manifest lines (`ContentManifest.NewlinePathForgesEntry`). Among
  all trees the manifest identifies a newline-free one exactly when it is a single file
  (`ContentCollision.IdentifiedExactlyWhenSingle`).
- A rule key that contains a dot is looked up two levels down (`RuleMatching.DottedKeyDisagrees`, exactly when:
  `RuleMatching.AgreeExactlyWhenDotFree`).
- A registry file whose last line lacks its newline, with the withdrawn release at its end, gets a
  field glued to that line (`RegistryWithdraw.OpenCommentSwallowsReason`, exactly when:
  `RegistryWithdraw.WithdrawnReadsBack`).

## Model

| member | source | states |
|---|---|---|
| IngressDelivery.AggregateMeaning | discord/scripts/discord_gateway_service.py:1068-1081 | what each aggregate status says about the targets, in both directions: pending iff some target is active, unknown iff none is active and one is unknown, delivered / failed / partial_failed by how many failed |
| IngressDelivery.PatchAdvances | discord/scripts/discord_gateway_service.py:1084-1095 | an upward patch of one target leaves the others alone, moves the receipt upward and stores the aggregate status |
| IngressDelivery.SaveAdvances | discord/scripts/discord_gateway_service.py:1158-1328 | each kind of save in the delivery loop is a legal step: upward, one entry only, aggregate stored |
| IngressDelivery.RunStepAdvances | discord/scripts/discord_gateway_service.py:1154-1328 | every step of a delivering handler moves targets only upward in pending, submitting, awaiting_result, end states, touches one entry, and posts only from a saved "submitting" |
| IngressDelivery.NoEnvelopeNoPost | discord/scripts/discord_gateway_service.py:1168-1180 | with no retained envelope no step leads to a post |
| IngressDelivery.TraceStep | discord/scripts/discord_gateway_service.py:1154-1328 | one more step keeps the trace property below |
| IngressDelivery.DrivenTraceOk | discord/scripts/discord_gateway_service.py:1148-1328 | the durable trace of one call, cut off anywhere: every saved receipt carries its aggregate and lies above the start, each post directly follows the save of "submitting" for its entry, no entry is posted twice, and without envelopes there is no post |
| IngressDelivery.PostsStop | discord/scripts/discord_gateway_service.py:1157-1158 | once an iteration has ended the loop, no later target is posted |
| IngressDelivery.RecoveryNeverSubmits | discord/scripts/discord_gateway_service.py:1160-1180 | a pass without envelopes posts nothing and turns leftover pending and submitting targets into delivery_unknown |
| IngressDelivery.IngressService.PersistTarget | discord/scripts/discord_gateway_service.py:1084-1095 | stores the patched receipt with its aggregate status, and nothing else |
| IngressDelivery.IngressService.AwaitAccepted | discord/scripts/discord_gateway_service.py:1197-1263 | from a saved acceptance on, every way the wait can end leaves exactly the saves the step machine makes |
| IngressDelivery.IngressService.SubmitTarget | discord/scripts/discord_gateway_service.py:1206-1263 | one submission: a cancelled call sends nothing, any other sends one post and leaves the outcome's target |
| IngressDelivery.IngressService.HandleReply | discord/scripts/discord_gateway_service.py:1183-1263 | what each answer to a post does to the target and the store |
| IngressDelivery.IngressService.VisitTarget | discord/scripts/discord_gateway_service.py:1156-1328 | one loop iteration equals the closed form of its outcome, and is driven by the step machine |
| IngressDelivery.IngressService.ResumeIngressDelivery | discord/scripts/discord_gateway_service.py:1148-1328 | the whole call: every target the loop gets to becomes its outcome, all others stay, the posts are exactly those of the iterations, and the effects are a run of the step machine |
| IngressProtocol.StepSound | discord/scripts/discord_gateway_service.py:1986-2083 | every step of claims, reclaims, deliveries, recoveries and crashes keeps keys, phases and the order of posts per claim |
| IngressProtocol.PostsKeyedOncePerClaim | discord/scripts/discord_gateway_service.py:2255-2278 | in every run each post carries the key of its (ingress, session), and no claim posts the same entry twice |
| IngressProtocol.AdvanceExclusive | discord/scripts/discord_gateway_service.py:1154-1328 | a delivery step keeps store and handler in agreement, moves the stored receipt upward, and posts only while "submitting" is stored |
| IngressProtocol.StepExclusive | discord/scripts/discord_gateway_service.py:1357-1360 | under the timing assumption at most one handler works on an ingress and the store agrees with it |
| IngressProtocol.PendingHasActive | discord/scripts/discord_gateway_service.py:1372-1392 | a pending receipt of the current protocol always has work left, so only older ones can take the expiry branch |
| IngressProtocol.StepMoves | discord/scripts/discord_gateway_service.py:2026-2076 | one step prunes a stored receipt, moves it upward, resets a retriable one, or expires an old one, and nothing else; a post leaves only while its target is stored as "submitting" |
| IngressProtocol.StepConcluded | discord/scripts/discord_gateway_service.py:2026-2081 | a delivered or delivery_unknown receipt survives any timely step but its pruning unchanged and unsent |
| IngressProtocol.ConcludedForever | discord/scripts/discord_gateway_service.py:2026-2081 | over every timely run, until it is pruned, such a receipt is never reset, rewritten or sent again |
| IngressProtocol.RunExclusive | discord/scripts/discord_gateway_service.py:2083-2085 | mutual exclusion per ingress over every timely run |
| IngressProtocol.StoredStatusIsAggregate | discord/scripts/discord_gateway_service.py:1068-1095 | in every timely run the stored status equals the aggregate of the stored targets |
| IngressProtocol.RecoveryOnlyRunsNeverPost | discord/scripts/discord_gateway_service.py:1331-1396 | any number of crashes, recovery passes and expiries without a newly routed message sends nothing |
| IdempotencyKeys.KeysCanCollide | discord/scripts/discord_gateway_service.py:2268 | two different ingress ids can share a key if and only if one continues the other with the target separator |
| IdempotencyKeys.KeyInjective | discord/scripts/discord_gateway_service.py:2268 | for ids without a colon, different (ingress, session) pairs have different keys, whatever the session names |
| IdempotencyKeys.IngressIdColonFree | discord/scripts/discord_gateway_service.py:333-342 | ids made of a numeric message id and a valid app name contain no colon |
| IdempotencyKeys.IngressIdInjective | discord/scripts/discord_gateway_service.py:333-342 | every message of every app has its own ingress id |
| IngressDedup.AcceptedOncePerSession | discord/scripts/discord_gateway_service.py:2026-2278 | over every run, with no timing assumption, a receiver that deduplicates by key accepts each message at most once per session, and every posted pair once |
| IngressDedup.AcceptedDistinct | discord/scripts/discord_intake_common.py:6057-6060 | the receiver accepts only what was posted, and no key twice |
| IngressDedup.SlowClaimantResends | discord/scripts/discord_gateway_service.py:2026-2085 | the run in which a slow claimant resets a delivered receipt and posts again |
| IngressRetry.StepOnlyPoster | discord/scripts/discord_gateway_service.py:2026-2085 | while no retry completes and the receipt is kept, only the handler that may post for an ingress does, and no other comes to |
| IngressRetry.SecondPostNeedsRetry | discord/scripts/discord_gateway_service.py:2026-2076 | over every timely run two posts of one message have a completed retry or a pruning between them, or belong to one claim in the order of its targets |
| IngressRetry.RepeatedPostNeedsRetry | discord/scripts/discord_gateway_service.py:2026-2076 | when claims name each session once, a message reaches a session a second time only after a completed retry or a pruning |
| IngressRetry.RetryPostsAgain | discord/scripts/discord_gateway_service.py:2034-2077 | from any state with a retriable receipt nobody works on, a timely run posts to any session again, under the same key |
| IngressRetry.AbsentIsPosted | discord/scripts/discord_gateway_service.py:1987-2002 | from any state in which a message has no receipt and nobody works on it, a timely run claims it and posts it to any session |
| IngressRetry.LeftoverPosts | discord/scripts/discord_gateway_service.py:2057-2085 | from any state in which handlers are left over on a message and none is in its delivery loop, a timely run drives one of them to a post to any session |
| IngressRetry.SettledCanPostAgain | discord/scripts/discord_gateway_service.py:2026-2085 | when nobody is in its delivery loop and it is not pending, a message can be posted to a session, by a timely run that prunes nothing of it, if and only if it has no receipt, or one a retry may take over, or a handler still holds an old claim on it |
| IngressRetry.PartialFailureResends | discord/scripts/discord_gateway_service.py:2026-2077 | a timely run in which a served session is posted to again because another one refused |
| IngressRetry.PrunedIsSentAgain | discord/scripts/discord_intake_common.py:2065-2067 | a timely run in which a delivered message is sent again after its receipt was pruned |
| WebSocketFrames.BigEndianRoundTrip | discord/scripts/discord_gateway_service.py:2411-2414 | the packed lengths read back, for any width |
| WebSocketFrames.MaskInvolution | discord/scripts/discord_gateway_service.py:2421-2435 | masking twice with one key gives the payload back |
| WebSocketFrames.HeaderReads | discord/scripts/discord_gateway_service.py:2401-2416 | the 7-, 16- and 64-bit length forms are all read back, and over-long frames are refused |
| WebSocketFrames.BodyReads | discord/scripts/discord_gateway_service.py:2417-2423 | mask and payload are read back and nothing after them is touched |
| WebSocketFrames.FrameRoundTrip | discord/scripts/discord_gateway_service.py:2401-2437 | any frame, masked or not, followed by anything, is read back with its opcode cut to four bits and leaves exactly the rest, if and only if the payload is within 16 MiB; else it is refused |
| WebSocketFrames.ClientFrameRoundTrip | discord/scripts/discord_gateway_service.py:2425-2437 | the same for what the client sends, for every mask |
| WebSocketClient.GatewayWebSocket.ReadExact | discord/scripts/discord_gateway_service.py:2386-2399 | returns the next bytes of buffer and stream, whatever the chunks, and never reads beyond them |
| WebSocketClient.GatewayWebSocket.ReadFrame | discord/scripts/discord_gateway_service.py:2401-2423 | reads what the byte-level parser reads and leaves what it leaves |
| WebSocketClient.GatewayWebSocket.ReadLength | discord/scripts/discord_gateway_service.py:2411-2414 | the extended length, and exactly its bytes consumed |
| WebSocketClient.GatewayWebSocket.ReadBody | discord/scripts/discord_gateway_service.py:2417-2423 | the same for mask and payload |
| WebSocketClient.GatewayWebSocket.SendFrame | discord/scripts/discord_gateway_service.py:2425-2437 | appends exactly the client frame under the next mask |
| WebSocketClient.GatewayWebSocket.RecvEvent | discord/scripts/discord_gateway_service.py:2442-2467 | event, unread rest and pongs are those of the stream specification, in order, whatever the chunks |
| WebSocketClient.ReceivedWithinLimit | discord/scripts/discord_gateway_service.py:2450-2458 | no stream at all makes the client hand out a message over the limit |
| WebSocketClient.ReceivePart | discord/scripts/discord_gateway_service.py:2446-2459 | reading one fragment ends the message, extends it, or refuses it for its length |
| WebSocketClient.ReassemblesFrom | discord/scripts/discord_gateway_service.py:2443-2464 | from any point inside a message the rest of it is joined to what was collected, each ping answered once and in order, exactly when the whole is within the limit |
| WebSocketClient.MessageRoundTrip | discord/scripts/discord_gateway_service.py:2442-2464 | a text message cut into any frames with pings anywhere is received as the concatenation, with one pong per ping, in order, and the stream right behind it |
| GatewayQueue.StepConserved | discord/scripts/discord_gateway_service.py:2671-2915 | each step of dispatcher, workers and stop keeps every message in exactly one place |
| GatewayQueue.StepBounded | discord/scripts/discord_gateway_service.py:2568-2580 | each step keeps the queue bound, the count of sentinels, and room for those still to be placed |
| GatewayQueue.StepWorkers | discord/scripts/discord_gateway_service.py:2671-2687 | no worker thread is lost: idle, busy and ended ones add up |
| GatewayQueue.EveryMessageInOnePlace | discord/scripts/discord_gateway_service.py:2560-2915 | over every interleaving, a stop event set by a signal before `stop` included, a message is queued, in hand, handled, rejected as overloaded or rejected at shutdown, as often as it was given; the queue is bounded and `stop` never finds it full |
| GatewayQueue.AtMostOneMessageStranded | discord/scripts/discord_gateway_service.py:2568-2583 | when all workers have ended, all messages but at most one are settled |
| GatewayQueue.StepBehind | discord/scripts/discord_gateway_service.py:2568-2583 | once all sentinels are placed only a put changes how many messages wait behind the last one, by one |
| GatewayQueue.StrandedAreLatePuts | discord/scripts/discord_gateway_service.py:2568-2583 | when all workers have ended, what is left in the queue are exactly the messages put after the last sentinel: none is stranded if and only if none was put that late |
| GatewayQueue.MessageCanBeStranded | discord/scripts/discord_gateway_service.py:2873-2880 | the run in which that one message is left behind the sentinel |
| GatewayWorker.Worker.DispatchGatewayMessage | discord/scripts/discord_gateway_service.py:2873-2915 | refused after the stop event, refused when full, otherwise queued last; each refusal counted once |
| GatewayWorker.Worker.WorkerTurn | discord/scripts/discord_gateway_service.py:2671-2687 | takes the oldest item: a sentinel ends the thread, a message is handled or, after the stop event, rejected |
| GatewayWorker.Worker.RequestStop | discord/scripts/discord_gateway_service.py:2528-2530 | sets the stop event and nothing else, and leaves a state in which `stop` may be called |
| GatewayWorker.Worker.Stop | discord/scripts/discord_gateway_service.py:2560-2580 | everything waiting is rejected, then the queue holds exactly one sentinel per worker; a second call does nothing |
| GatewayWorker.Worker.Drain | discord/scripts/discord_gateway_service.py:2568-2578 | empties the queue and rejects exactly the messages that were in it |
| GatewayWorker.MessagesAreWaiting | discord/scripts/discord_gateway_service.py:2568-2578 | the messages drained are those the machine counts as waiting |
| GatewayWorker.Worker.PlaceSentinels | discord/scripts/discord_gateway_service.py:2579-2580 | there is room for all sentinels |
| GatewayReconnect.RunForever | discord/scripts/discord_gateway_service.py:2930-3081 | the loop's greetings and sleeps are those of the specification, for every script of attempts |
| GatewayReconnect.ReceiveEvents | discord/scripts/discord_gateway_service.py:2988-3063 | the inner loop's variables after any events |
| GatewayReconnect.EventKeepsPairing | discord/scripts/discord_gateway_service.py:3009-3031 | exactly which events leave what would be resumed soundly paired |
| GatewayReconnect.SoundExactlyWhenKept | discord/scripts/discord_gateway_service.py:3009-3081 | wherever the connections of a script break, the next greeting pairs nothing that does not belong together, if and only if every event handled is one of those |
| GatewayReconnect.NumberedReadysSuffice | discord/scripts/discord_gateway_service.py:3010-3022 | judged from the script alone: if every READY carries a number and names the configured user, every event is one of those |
| GatewayReconnect.ResumeNeverMixesSessions | discord/scripts/discord_gateway_service.py:2963-2986 | over all reconnects whose events satisfy that condition, a RESUME pairs a session with a number received in it |
| GatewayReconnect.ReadyWithoutNumberMixes | discord/scripts/discord_gateway_service.py:3010-3022 | three scripts in which a RESUME mixes sessions |
| GatewayReconnect.InvalidSessionForcesIdentify | discord/scripts/discord_gateway_service.py:3058-3063 | after an invalid-session event the next connection identifies, however many attempts fail before it |
| GatewayReconnect.SleepsBounded | discord/scripts/discord_gateway_service.py:3070-3081 | every retry sleep lies between 4 and 60 seconds |
| FixLifecycle.ThreadStepOk | discord/scripts/discord_intake_service.py:645-778 | every step of a request thread keeps bead bookkeeping honest: given up means no bead, a closed one, or a recorded failed cleanup |
| FixLifecycle.StepBeads | discord/scripts/discord_intake_service.py:742-893 | every step of the service keeps that for all stored and in-memory requests |
| FixLifecycle.EveryRunTracked | discord/scripts/discord_intake_service.py:742-893 | every run from the start, disorderly ones included, keeps the bookkeeping of beads and links that the next three rows start from |
| FixLifecycle.LinkRemovalJustified | discord/scripts/discord_intake_service.py:779-788 | a link goes away only by its own request's release or recovery, and then no bead was recorded or it was closed, and no cleanup failed |
| FixLifecycle.OpenBeadKeepsLink | discord/scripts/discord_intake_service.py:687-717 | over every run a request with a recorded bead keeps its link until that bead is closed, through timeouts of unknown state |
| FixLifecycle.FailedCleanupKeepsLink | discord/scripts/discord_intake_service.py:833-848 | over every run a recorded failed cleanup keeps the link for good |
| FixLifecycle.StepLinksHeld | discord/scripts/discord_intake_service.py:742-893 | every orderly step keeps each live linked request holding its conversation's link |
| FixLifecycle.LiveRequestsHoldTheirLink | discord/scripts/discord_intake_service.py:853-893 | in every orderly run of reserve, process, crash and start-up recovery a live request that saved its link holds it |
| FixLifecycle.OneLiveRequestPerConversation | discord/scripts/discord_intake_service.py:868-888 | hence no two live ones share a conversation |
| FixLifecycle.CompletedReservationsAreLinked | discord/scripts/discord_intake_service.py:886-893 | every completed reservation with a key has saved its link |
| FixLifecycle.ReportFailureCase | discord/scripts/discord_intake_service.py:763-788 | if the except block is left by an exception, the link is still held afterwards exactly when the stored status is final or the finally block keeps the link |
| FixLifecycle.FailedReportSharesConversation | discord/scripts/discord_intake_service.py:763-788 | the run in which two live requests then share a conversation |
| FixLifecycle.UnreadRequestCase | discord/scripts/discord_intake_service.py:746-791 | if the request file cannot be read, the finally block takes away the link of a request that is still stored as live, and no other link |
| FixLifecycle.UnreadRequestSharesConversation | discord/scripts/discord_intake_service.py:746-791 | the run in which two live requests then share a conversation |
| FixLifecycle.LosesLinkExactlyWhen | discord/scripts/discord_intake_service.py:763-848 | in every state the service gets into, a live request loses the link it holds in exactly these steps: the finally block after an unreadable file, the finally block or recovery giving back a request given up in memory only |
| FixService.IntakeService.ReserveRequest | discord/scripts/discord_intake_service.py:853-893 | accepted exactly when interaction, request and conversation are all new; otherwise nothing but the receipt changes and it names the holder |
| FixService.IntakeService.AcceptRequest | discord/scripts/discord_intake_service.py:886-893 | the three saves of an accepted request, in order, each a step of the machine |
| FixService.IntakeService.BeginProcessing | discord/scripts/discord_intake_service.py:746-752 | a received request is stored as processing, any other goes on as it is |
| FixService.IntakeService.CreateFixBead | discord/scripts/discord_intake_service.py:511-557 | ends with a recorded and saved bead, or with the outcome of the exit taken |
| FixService.IntakeService.SlingBead | discord/scripts/discord_intake_service.py:656-739 | from the bead on, the request ends with the outcome of its dispatch or in the except block |
| FixService.IntakeService.FailUpdate | discord/scripts/discord_intake_service.py:571-595 | a bead that could not be initialised is closed, or its failed cleanup recorded |
| FixService.IntakeService.RaiseAt | discord/scripts/discord_intake_service.py:763-766 | an exception anywhere in the try block changes no file |
| FixService.IntakeService.FinishSling | discord/scripts/discord_intake_service.py:677-739 | the five ways `gc sling` ends; only a missing `gc` leaves the stored request as it was |
| FixService.IntakeService.RunFixDispatch | discord/scripts/discord_intake_service.py:645-739 | the merged request is the dispatch outcome, or an exception struck exactly where the environment says |
| FixService.IntakeService.HandleException | discord/scripts/discord_intake_service.py:763-778 | an open bead is closed or its failed cleanup recorded, and the request stored as internal_error |
| FixService.IntakeService.FinallyRelease | discord/scripts/discord_intake_service.py:779-793 | the link is given back exactly when the request was given up without a failed cleanup, and only if it is its own |
| FixService.IntakeService.ProcessRequest | discord/scripts/discord_intake_service.py:742-793 | the stored request ends with its dispatch outcome or, when an exception struck, as an internal error with its bead dealt with; all other requests stay, and the link is given back exactly for a request given up without a failed cleanup |
| FixService.IntakeService.GiveUpRequest | discord/scripts/discord_intake_service.py:833-848 | bead closed, request stored as failed, then the link given back, in that order |
| FixService.IntakeService.RecoverRequest | discord/scripts/discord_intake_service.py:808-849 | one stored request after recovery, and whether it was counted |
| FixService.IntakeService.RecoverIncompleteRequests | discord/scripts/discord_intake_service.py:805-850 | for every listing order each request is recovered once; only recent dispatches and ones whose bead cannot be looked up stay unfinished; links only disappear |
| RunClosure.ForwardPass | profiler/scripts/profile_collect.py:77-90 | one pass adds only reachable beads, says truthfully whether it added any, and if not, no unknown bead names a known one |
| RunClosure.ReversePass | profiler/scripts/profile_collect.py:92-106 | the same for beads named by known ones, for any listing of the set |
| RunClosure.Fixpoint | profiler/scripts/profile_collect.py:73-106 | the loop ends, with exactly the ids reachable from the root |
| RunClosure.CollectRun | profiler/scripts/profile_collect.py:68-109 | fails exactly for an unknown root; otherwise the reachable beads, each once, ordered by creation time and then id |
| RunClosure.SortByCreatedOrdered | profiler/scripts/profile_collect.py:226 | the stable sort by creation time of an id-sorted list orders by both |
| RunClosure.EdgeIsAdjacency | profiler/scripts/profile_collect.py:77-106 | for unique non-empty ids the two passes together read links and dependencies as undirected edges |
| RunClosure.ReachableSymmetric | profiler/scripts/profile_collect.py:68-109 | the run is a connected component |
| RunClosure.RunIgnoresListing | profiler/scripts/profile_collect.py:107-109 | the collected list is the same for every ordering of the store's list |
| BaseRefLint.BaseRefBlock | scripts/gascity_pack_inference_gate.py:3338-3356 | the scan returns the lines from the first anchor to the first return to depth zero, or none |
| BaseRefLint.StopArm | scripts/gascity_pack_inference_gate.py:3395-3414 | the depth scan of the arm |
| BaseRefLint.BlockIsTheStatement | scripts/gascity_pack_inference_gate.py:3338-3356 | whatever surrounds it and however deep it nests, the extracted block is the anchored if statement |
| BaseRefLint.StopArmIsElseArm | scripts/gascity_pack_inference_gate.py:3395-3414 | the collected arm is the outer else arm's top-level lines, none when there is none |
| BaseRefLint.AcceptedBlockStops | scripts/gascity_pack_inference_gate.py:3417-3453 | an accepted block run with all its outer conditions false runs its else arm and never gets to the end of it: it exits, or bash gives it up |
| BaseRefLint.OnlyProbedLines | scripts/gascity_pack_inference_gate.py:3380-3392 | what the lint checks on the beginnings of lines holds of a program if and only if every assignment to BASE_REF, at any depth, is `"$BASE_REMOTE"` or `"$BASE_LOCAL"` and nothing else that could be spelled so |
| BaseRefValues.RunKeepsName | scripts/gascity_pack_inference_gate.py:3380-3392 | over every run a variable that no statement assigns keeps its value |
| BaseRefValues.KeepsProbes | scripts/gascity_pack_inference_gate.py:3380-3392 | if on every path of the text BASE_REF ends with the origin of one of the three names, every run ends with one of their first values |
| BaseRefValues.EscapeBreaks | scripts/gascity_pack_inference_gate.py:3380-3392 | and if not, the answers along such a path lead a run to another value |
| BaseRefValues.ProbedExactlyWhenKept | scripts/gascity_pack_inference_gate.py:355-360 | for every program: BASE_REF always ends as it was or as BASE_REMOTE or BASE_LOCAL was at first, if and only if every path of the text keeps that origin |
| BaseRefValues.AcceptedBlockAssignsProbedRefs | scripts/gascity_pack_inference_gate.py:3380-3392 | from every state, whatever is answered and printed, an accepted block that assigns neither BASE_REMOTE nor BASE_LOCAL ends with BASE_REF as it was or with the value one of those had when it began |
| BaseRefValues.AcceptedBlockCanSubstitute | scripts/gascity_pack_inference_gate.py:3380-3392 | any word at all can be made the base by a block that the lint accepts |
| BaseRefValues.MainSubstitutes | scripts/gascity_pack_inference_gate.py:3380-3392 | `BASE_REMOTE=main` as such a block's first line |
| BaseRefExit.RunAllowed | scripts/gascity_pack_inference_gate.py:3417-3424 | what a run of a program shows is what its text allows: falling through only where it can, a zero exit or being given up only where such a line is reached |
| BaseRefExit.ToMeets | scripts/gascity_pack_inference_gate.py:3417-3424 | and every such line the text reaches is met under some answers of the conditions |
| BaseRefExit.ArmDecides | scripts/gascity_pack_inference_gate.py:3395-3424 | with its outer conditions false a block can leave with 0, or be given up, if and only if the text of its else arm reaches such a line |
| BaseRefExit.AcceptedBlockExits | scripts/gascity_pack_inference_gate.py:3417-3453 | an accepted block always exits when its outer conditions are false, if and only if its else arm reaches no assignment to a readonly variable and no bad substitution |
| BaseRefExit.AcceptedBlockFails | scripts/gascity_pack_inference_gate.py:3417-3453 | it always exits with a failing status, if and only if its else arm moreover reaches no exit of status 0 |
| BaseRefExit.AcceptedBlockCanExitZero | scripts/gascity_pack_inference_gate.py:3417-3424 | an accepted block that leaves with 0 before its stop line |
| BaseRefExit.AcceptedBlockCanDisguiseZero | scripts/gascity_pack_inference_gate.py:3422 | accepted blocks whose only exit is a 0 in another spelling |
| BaseRefExit.DisguisedZeros | scripts/gascity_pack_inference_gate.py:3422 | two such spellings |
| BaseRefExit.AcceptedBlockCanBeAbandoned | scripts/gascity_pack_inference_gate.py:3417-3424 | every line at which bash gives up, put first in the else arm, makes an accepted block that never reaches its exit |
| BaseRefExit.AbandoningLines | scripts/gascity_pack_inference_gate.py:3417-3424 | two such lines, `UID=5` and `echo ${}` |
| BaseRefShipped.ShippedAccepted | gastown/assets/scripts/polecat-workspace.sh:74-98 | the shipped block is in the modelled language and the lint accepts it |
| BaseRefShipped.ShippedBlockFails | gastown/assets/scripts/polecat-workspace.sh:91-98 | when no base is found the shipped block always leaves with a failing status |
| BaseRefShipped.ShippedBlockResolves | gastown/assets/scripts/polecat-workspace.sh:74-98 | whatever its conditions say, the shipped block gets to its end only if a probe said yes, with BASE_REF holding what BASE_REMOTE held when it began if the first did, else what BASE_LOCAL held; otherwise it fails, and it is never given up |
| ContentManifest.BuildManifest | validate_registry.py:160-176 | succeeds exactly when every record is an accepted blob inside the pack and there is one, and then returns the sorted lines joined |
| ContentManifest.SplitJoin | validate_registry.py:176 | newline-free lines survive the join |
| ContentManifest.EntryInjective | validate_registry.py:102-121 | a line determines path, mode and digest, spaces included |
| ContentManifest.ManifestIgnoresListing | validate_registry.py:160-176 | the manifest is the same for every order of the tree listing |
| ContentManifest.ManifestIdentifiesTree | validate_registry.py:160-176 | for newline-free paths two manifests are equal if and only if the trees have the same paths, modes and digests |
| ContentManifest.NewlinePathForgesEntry | validate_registry.py:171-176 | two different trees with one manifest |
| ContentCollision.MergedCollides | validate_registry.py:160-176 | for every newline-free tree of two or more files another tree has its manifest |
| ContentCollision.SingleIdentified | validate_registry.py:160-176 | no other tree has the manifest of a single newline-free file |
| ContentCollision.IdentifiedExactlyWhenSingle | validate_registry.py:160-176 | among all trees a newline-free one is identified by its manifest if and only if it is a single file |
| RegistryLines.QuotedIsField | scripts/registry_release.py:59-65 | a line with a quoted value for a key is a field line of that key |
| RegistryLines.FieldIsNoHeader | scripts/registry_release.py:12-14 | no line is both a field and a header |
| RegistryLines.FieldLineReads | scripts/registry_release.py:72 | a written field line is read as that field |
| RegistryLines.ReadField | scripts/registry_release.py:59-65 | the first quoted value for the key |
| RegistryLines.FindSection | scripts/registry_release.py:37-56 | finds the first section whose key reads as wanted, with its exact extent, or proves there is none |
| RegistryLines.ReadsBack | scripts/registry_release.py:18-23 | written lines are read back as they are if and only if all but the last end in a newline |
| RegistryLines.FoundMoves | scripts/registry_release.py:37-56 | after an edit that keeps headers and key values, each section is found again, with only the edited lines changed |
| RegistryLines.OtherFoundKept | scripts/registry_release.py:37-56 | an edit inside one section leaves every other name's section, line for line |
| RegistryWithdraw.LineList.ReplaceField | scripts/registry_release.py:68-74 | replaces the first line of that field in the range, or reports that there is none |
| RegistryWithdraw.UpsertField | scripts/registry_release.py:77-88 | replaces the first line of the field, or inserts it after the last description, or at the end |
| RegistryWithdraw.UpsertHolds | scripts/registry_release.py:77-88 | afterwards the field reads as written, and at most one line was added |
| RegistryWithdraw.UpsertKeepsOthers | scripts/registry_release.py:77-88 | every other line is still there, in order |
| RegistryWithdraw.UpsertKeepsValues | scripts/registry_release.py:77-88 | what is read for every other key stays |
| RegistryWithdraw.MarkMeans | scripts/registry_release.py:30-32 | the release reads as withdrawn with that reason, at most two lines are added, all others kept |
| RegistryWithdraw.MarkTwice | scripts/registry_release.py:30-32 | marking twice is marking once |
| RegistryWithdraw.WithdrawnRelease | scripts/registry_release.py:26-34 | nothing outside the release changes, and the edited lines locate the same pack and release again, now marked |
| RegistryWithdraw.OtherPackKept | scripts/registry_release.py:37-44 | every other pack is found as before, line for line |
| RegistryWithdraw.OtherReleaseKept | scripts/registry_release.py:47-56 | every other release of the pack is found as before, line for line |
| RegistryWithdraw.NoneAppears | scripts/registry_release.py:37-56 | no pack and no release becomes findable |
| RegistryWithdraw.WithdrawnTwice | scripts/registry_release.py:26-34 | withdrawing the same release again changes nothing |
| RegistryWithdraw.WithdrawnReadsBack | scripts/registry_release.py:27-34 | the written file reads back as the edited lines if and only if no field was glued to an unterminated last line; always when the file ends in a newline |
| RegistryWithdraw.OpenCommentSwallowsReason | scripts/registry_release.py:77-88 | a file without a final newline in which the reason is lost in a comment |
| RegistryWithdraw.RegistryFile.Withdraw | scripts/registry_release.py:26-34 | rewrites the file with the located release marked, or leaves it and says which of pack and release is missing |
| RegistryWithdraw.RegistryFile.SetSource | scripts/registry_release.py:17-23 | replaces the pack's first source line, or leaves the file and says what is missing |
| RegistryWithdraw.SourceSet | scripts/registry_release.py:17-23 | the pack reads with the new source where it was, and no pack becomes findable |
| RegistryWithdraw.SourceKeepsOthers | scripts/registry_release.py:17-23 | every other pack is found where it was, line for line |
| RuleMatching.PayloadValue | github/scripts/github_intake_common.py:613-619 | walks the dotted path, null as soon as something is missing |
| RuleMatching.SplitJoinDots | github/scripts/github_intake_common.py:477-481 | splitting undoes the joining of plain keys |
| RuleMatching.FlattenMeans | github/scripts/github_intake_common.py:476-482 | flattening a table below any path adds exactly its demands and overwrites none |
| RuleMatching.FlatMatchingIsNestedMatching | github/scripts/github_intake_common.py:476-632 | when no dotted key stands above a leaf, at any depth, flattened matching is matching level by level |
| RuleMatching.AgreeExactlyWhenDotFree | github/scripts/github_intake_common.py:476-632 | the two agree on every payload if and only if no dotted key stands above a leaf |
| RuleMatching.RuleMatches | github/scripts/github_intake_common.py:622-632 | true exactly when the event is the rule's and every path matches |
| RuleMatching.DottedKeyDisagrees | github/scripts/github_intake_common.py:613-632 | a key with a dot for which the two disagree |
| ImportBindings.ImportBinding | scripts/pack_release_compat.py:59-63 | a binding is non-empty, of allowed characters, and has no dash at either end |
| ImportBindings.BindingIdempotent | scripts/pack_release_compat.py:59-63 | a binding is its own binding |
| ImportBindings.CandidatesDiffer | scripts/pack_release_compat.py:71-75 | no two candidates for a name are equal |
| ImportBindings.FreeBinding | scripts/pack_release_compat.py:70-75 | the search ends, with the first unused candidate |
| ImportBindings.UniqueBindings | scripts/pack_release_compat.py:66-78 | fails exactly when some name has no binding; otherwise distinct names get distinct, non-empty, allowed bindings, each a candidate of its name |
| RoutingOrder.SnowflakeOrder | discord/scripts/discord_gateway_service.py:1107-1108 | below 10^20 string order is numeric order |
| RoutingOrder.SnowflakeBoundIsTight | discord/scripts/discord_gateway_service.py:1107-1108 | the two agree below a bound if and only if the bound is at most 10^20 |
| RoutingOrder.TimestampsAfterSnowflakes | discord/scripts/discord_gateway_service.py:1105-1116 | orders without a numeric id sort after all with one |
| RoutingOrder.DeliveryOrderIsNumeric | discord/scripts/discord_gateway_service.py:1105-1116 | for receipts with numeric ids the order, and equality, is that of the numbers, leading zeros ignored |

## Left out

- Store: saves are atomic and save-if-absent is exclusive; a receipt torn by a crash during the exclusive create ("claim_conflict_unreadable" and "failed_claim_conflict") is not modelled.
- Session delivery: an acceptance comes before the terminal result, a success terminal is followed by a normal return and a failure terminal by the request-failed error; transport and event streams behind it are foreign.
- Ages and clocks: reclaim, expiry and the recovery grace are possible at any moment; `Timely` and `graceOver` stand for the comparisons.
- IngressRetry.SettledCanPostAgain: says nothing of a message while a handler is in its delivery loop or its receipt is pending; what such a handler may still post belongs to its own claim (IngressRetry.SecondPostNeedsRetry).
- IngressProtocol.ConcludedForever: needs that a stale claim has a dead holder and that nobody works on a receipt that is pruned, as the code's timing constants intend; without it IngressDedup.SlowClaimantResends shows the failure, and only the key property remains.
- Room-launch routing (`apply_ingress_routing_state`, launch paths) and how targets are chosen from a message: the routing decision is an input.
- Rejected and skipped receipts that never get targets, except that a retriable one can be reclaimed.
- WebSocketClient.GatewayWebSocket.RecvEvent: stops before JSON decoding; timeouts inside a frame and pongs between fragments lose stream state in the code and are only modelled as far as a pong ends the call.
- The WebSocket handshake, TLS, close and heartbeat timing.
- GatewayWorker.Worker.Stop: the joins with their deadline and the state file are left out, and each method is one thread's code; what other threads do in between is in GatewayQueue.
- Failures inside `handle_gateway_message`: a message in a worker's hand counts as handled when the call ends.
- GatewayReconnect.RunForever: attempts, events and jitter are a script; heartbeats appear only as exceptions that end a connection, and the gateway URL is left out.
- GatewayReconnect.ResumeNeverMixesSessions: needs the condition of EventKeepsPairing on each event, because the code has no check of its own; a number that arrives before any READY of a new connection belongs to no session.
- Pruning of requests and interaction receipts after a day (`prune_requests`, `prune_receipts`): a request that holds a workflow link is never pruned, so no live request loses its link by it.
- Periodic request recovery and the manual workflow-release commands: they can drop a link while work is live.
- A request file that is missing or torn when the except block reads it again: the block then stores a new one without a workflow key over it, and the link stays.
- FixService.IntakeService.ProcessRequest: starts with the request read; what happens when it cannot be is FixLifecycle.UnreadRequestCase.
- Commands whose scope is not the conversation: reservations with an empty key stand for them.
- FixService.IntakeService.RecoverIncompleteRequests: is recovery at start-up, before any thread exists, over valid request files.
- FixService.IntakeService.RunFixDispatch: an invalid target and each failure to create a bead are one exit, as they differ only in their reason text.
- Notifications, except that an exception in one is an exception of its step.
- RunClosure.RunIgnoresListing: bead ids are unique and not empty; for a repeated id the last bead wins in the index, and an empty id would count as a link in one direction only.
- The collector's hashing, session attribution and output files.
- BaseRefLint.AcceptedBlockStops: is about a small language, one statement to a line: assignments of one word or of the output of a `git` command with a fallback, `echo`, `git` and `gc` commands, exits with a decimal number, and nested if/elif/else over `git` commands and comparisons of two quoted words, with `!`, `&&` and `||`. Words are plain text, `$name` and `${name}`. An unset variable counts as an empty one; the answers of conditions (comparisons included), the output of `git`, tilde expansions, positional parameters and the variables bash computes itself are whatever the environment says. The shell is bash 5.2, outside of its POSIX mode and run from a script; another shell may exit where bash gives up a block. Conditions with a bad substitution, assignments to OPTIND, HISTCMD, SRANDOM and POSIXLY_CORRECT, attributes given to variables elsewhere, pipes, redirections, other substitutions and expansions, loops, case, functions, aliases, shell options and here-documents are outside the language. The lint itself takes any line that starts with `exit ` and is not `exit 0` for a stop, `exit 1 | cat` among them. The fence reader and the bare-origin and fragment checks are left out.
- ContentManifest: the final SHA-256, UTF-8 decoding and git itself; digests are opaque strings of 64 characters.
- RegistryLines: characters beyond ASCII whitespace, and line ends other than newline; the vertical tab, form feed, separators and Unicode line ends (\x0b, \x0c, \x1c to \x1e, \x85, \u2028, \u2029), at which Python's `splitlines` also splits, are taken not to occur.
- RegistryWithdraw.RegistryFile.Withdraw: the reason is the quoted string the JSON encoder returns, taken as given and free of newlines.
- RuleMatching.AgreeExactlyWhenDotFree: keys are not empty and occur once in their table, and only scalars print as a text the table expects.
- RoutingOrder.DeliveryOrderIsNumeric: digits are ASCII digits.
- IdempotencyKeys.IngressIdColonFree: message ids are Discord's decimal ids.
- JWT signing, GitHub delivery, status pages, formulas and the Go file-system wrapper: plumbing.
