# Verified model of the webhook delivery pipeline

A Dafny model of the engine that takes events in over HTTP, files them together with an outbox
record, relays outbox records to a stream, and delivers each message to the endpoints of its
tenant with retries, a dead-letter queue, and recovery of messages whose consumer went away; and
of the three verifiers of the signature header that it sends.

The in-memory implementations define the meaning of repository, queue and guard. They are
classes here (`MemoryRepository`, `MemoryStreamQueue`, `MemoryGuard`), and so are the code that
runs on them (`Relay`, `Dispatcher`, `WorkerPool`, `Handler`). Each method is proved against a
specification function on a snapshot of the object. Over those functions there are five state
machines whose actions interleave at every repository, queue or guard call:

- `Pipeline`: ingestion, relays, workers, reclaimers and DLQ replay, with crashes, cancellations
  and failed acknowledgements between any two calls;
- `Ingest`: concurrent ingestion requests over guard and repository;
- `QueueRuns`: calls of any consumers on a queue;
- `ReaderWait`: readers blocking on the notification channel;
- `Guard`: calls of any lock holders.

`Refinement`, `BatchRuns`, `RelayRuns` and `Handlers` show that a worker's turn, a reclaimer's tick,
a relay's batch and the ingestion handler, cancelled at any point or not, are runs of these
machines in which only that consumer, relay or request acts. The no-loss
argument follows the *generation* of an event, the outbox record that last made it PENDING,
through record, message and pending entry. The maps that remember it (`gen`, `origins`,
`abandoned`, `rounds`, `replays`) are history that no step reads.

How to read the statements:

- A `Context` can be cancelled at any check of it, and stays cancelled. In `Pipeline` each
  consumer has its own flag, which covers the pool's shared context and cancellation between a
  check and the effect that follows it.
- `uuid.New` is a counter: it never repeats. A `Clock` advances from each reading to the next, which
  is what ends a blocking read. Other clock readings and the order of map iteration are arbitrary;
  so are random draws and HTTP responses, which `Random` and `HttpClient` log.
- `Endpoint.urlParses` says whether an HTTP request can be built for the URL. An endpoint for
  which it cannot gets no attempt at all, so a tenant with only such endpoints is in the same
  position as one with none.
- A dispatch round counts as completed when the consumer has gone through all endpoints and a
  status has been written. A round that was cut short counts for nothing, and leaves its message
  pending.
- The MAC is an arbitrary function from a key and a text to 32 bytes. JavaScript numbers are
  reals under any monotone rounding that leaves the integers up to 2^53 alone, and any printing
  that is decimal on the safe integers.

`dafny verify dfyconfig.toml` checks the whole project.

## Model

| member | source | states |
|---|---|---|
| NoLoss.NoEventOfTenantIsLost | internal/worker/pool.go:118-307 | No loss, tenant by tenant: in every state of every run of ingests, relay steps, worker and reclaimer steps, replays, crashes, cancellations and failed acks, in which the tenant has a deliverable endpoint whenever it has events and attempts on its messages get fresh IDs, every PENDING event of the tenant has a PENDING outbox record, a message past the cursor, or a pending entry, whatever other tenants lack |
| NoLoss.NoPendingEventIsLost | internal/worker/pool.go:118-307 | So on runs that serve every tenant no PENDING event at all is without such a carrier |
| NoLoss.LostOnlyIfAbandoned | internal/worker/pool.go:247-266 | Without any assumption on the run: a PENDING event without a carrier had a message of its current generation acknowledged by a consumer that wrote no status |
| NoLoss.PublishedHasMessage | internal/outbox/relay.go:61-87 | At every crash point, each outbox record that is not PENDING was itself published: the stream has a message for its event that came from this record |
| NoLoss.CancelledConsumerIsInert | internal/worker/pool.go:281-304 | Once cancelled, no step of a consumer changes an event, the repository or the pending list, and it stays cancelled |
| NoLoss.OnlyLiveConsumersAck | internal/worker/pool.go:148-155 | A pending entry disappears only by an acknowledgement that did not fail, of a consumer that was never cancelled and has finished with that very message |
| PipelineSteps.NextKeepsInv | internal/worker/pool.go:118-307 | Every action keeps the invariant that ties records, messages, cursor, pending entries, relays and consumers to the generations of the events |
| PipelineSteps.ReachableInv | internal/worker/pool.go:118-307 | The invariant holds in every reachable state |
| PipelineInv.CreateAdvances | internal/storage/memory.go:131-172 | Creating an event starts its first generation and settles or unsettles no message |
| PipelineInv.ReplayAdvances | internal/storage/memory.go:309-341 | A replay starts a new generation for exactly its hits; messages of older generations stay settled |
| PipelineInv.MarkAdvances | internal/storage/memory.go:199-215 | Marking a record whose message is in the stream keeps every PUBLISHED record backed by a message |
| PipelineInv.UpdateAdvances | internal/storage/memory.go:236-250 | A final status written for an event never makes another event PENDING |
| Duplication.BoundedDuplication | internal/worker/pool.go:239-248 | On every run on which the event is never delivered by two consumers at once, the completed dispatch rounds for it number at most one plus its replays, however many duplicates were published |
| Duplication.SoloRunIsOncePerEra | internal/worker/pool.go:239-306 | On such runs every completed round delivered another generation of the event, and that generation is over |
| Duplication.FenceKeepsOncePerEra | internal/worker/pool.go:239-248 | A generation that is found PENDING at the fence has no completed round yet |
| Duplication.RunIsCounted | internal/storage/memory.go:319-338 | On every run an event has one outbox record for its creation and one for each replay |
| Fencing.FinalEventsStayFenced | internal/worker/pool.go:239-248 | Zombie fencing: from every reachable state in which the event is final and nobody is past the fence with it, on every run in which no live consumer takes a message of this event for one past the ceiling and, if the event is in the DLQ, its tenant does not replay it, the status stays, nobody gets past the fence with it, and no further round of it completes, whatever happens to other events |
| Fencing.StaysFencedIff | internal/worker/pool.go:212-248 | Those two are exactly the steps that end such a state |
| Fencing.FencedThroughoutIff | internal/worker/pool.go:212-248 | So a run keeps the event fenced off throughout if and only if it has no such step |
| Fencing.FinalStatusChangesIff | internal/worker/pool.go:212-216 | This is exactly when a step changes DELIVERED or DLQ: a consumer already past the fence writes another verdict, a claim past the ceiling gives the event up, or its tenant replays it from the DLQ |
| Departures.UnserviceableEventsAreStranded | internal/worker/pool.go:250-266 | The assumption of no loss is needed for every tenant: when no active endpoint takes a request, the consumer's own next steps acknowledge the message and leave every event, so also a PENDING one, as it was; the event is carried afterwards if and only if something else than this entry carries it |
| Departures.LossIsReachable | internal/worker/pool.go:264-266 | For every event of a named tenant and all endpoints among which the tenant has no active one that takes a request, a run from the empty system ends with the event PENDING and nothing to carry it |
| Departures.DeliveredTurnsDLQ | internal/dispatcher/client.go:146-150 | For every event of a tenant whose first endpoint takes a request, a run from the empty system in which two consumers pass the fence leads to DELIVERED and on to DLQ |
| Republication.PublishesAgainIff | internal/outbox/relay.go:61-84 | On every run: a relay's next publication adds a message for its first record, and there already is one from that record if and only if the record is no longer PENDING, or some relay is about to mark it, or some relay crashed or gave up between publishing and marking it |
| Republication.PublishesAgainWithoutCrashIff | internal/outbox/relay.go:76-84 | While no relay has crashed or given up there, the state alone tells whether a publication is a second one: the record is no longer PENDING or is being marked |
| Republication.PublishedIff | internal/outbox/relay.go:76-84 | The same condition says of any record in any reachable state whether the stream has a message from it |
| Departures.RecordPublishedTwice | internal/storage/memory.go:174-197 | For every event, a run from the empty system in which two relays fetch its one record ends with two messages from that record, with different IDs |
| Departures.CrashedRelayPublishesTwice | internal/outbox/relay.go:76-84 | For every event, a run from the empty system in which the only relay crashes between publishing and marking publishes the record a second time, although it is PENDING and nobody is marking it |
| Departures.OverlapDuplicates | internal/worker/pool.go:239-306 | For every event of a tenant whose one active endpoint takes a request, a run from the empty system in which two consumers pass the fence completes two rounds for the event, which was never replayed |
| Ingest.StaleReleaseFreesLock | internal/idempotency/guard.go:256-259 | For every key and all times at which a first lock has expired and a second one has not: a third request is refused, but after the first request's failure it holds the lock together with the second |
| Storage.DuplicateIdClaimsKey | internal/storage/memory.go:141-149 | For any two events under one ID, the second with a key of its own: filing the second fails and leaves its key claimed |
| Signatures.WraparoundAccepts | internal/dispatcher/hmac.go:54-60 | For every clock reading after 1970 a header with the earliest timestamp passes the largest tolerance, although it lies further back |
| Refinement.WorkingIsARun | internal/worker/pool.go:148-155 | Whatever the pool does with a message, to the end or cancelled at any point, with any responses and any outcome of the acknowledgement, is a run of one consumer's steps alone with the same repository and pending entries at the end |
| Refinement.GivingUpIsARun | internal/worker/pool.go:212-220 | So is the reclaimer's step past the ceiling, cancelled or not |
| BatchRuns.WorkBatchIsARun | internal/worker/pool.go:131-155 | A worker's whole turn, from reading its batch to the last acknowledgement or to dropping what a cancellation leaves of it, is a run of one consumer's steps alone with the same repository and group at the end |
| BatchRuns.RecoverPassIsARun | internal/worker/pool.go:174-231 | So is the reclaimer's tick, from its claim to the last message |
| RelayRuns.RelayingIsARun | internal/outbox/relay.go:44-90 | Whatever a call of the relay does with a batch, complete or cut short between any two steps, is a run of one relay's steps alone with the same repository and stream at the end |
| Quiescence.Quiesce | internal/worker/pool.go:118-232 | Drain to quiescence: from every ready state, the relay's drain, a worker's turns and the reclaimer's ticks terminate and, uncancelled, leave no PENDING record, a fully read stream, no pending entry, and every event DELIVERED or DLQ |
| Quiescence.ReachableIsReady | internal/worker/pool.go:118-307 | Every state that the pipeline can reach while tenants can be delivered to is such a ready state |
| Quiescence.WorkToEnd | internal/worker/pool.go:123-156 | A worker's turns reach the end of the stream and lose no event on the way; n unread messages take n divided by the batch size, rounded up |
| Quiescence.ReclaimAll | internal/worker/pool.go:174-231 | Over n idle entries with acknowledgements, claim-then-ack ticks empty the list in n divided by the batch size, rounded up |
| Quiescence.TickTakesBatch | internal/queue/stream.go:525-538 | A claim over idle entries takes a full batch of them or all that are left |
| Quiescence.DrainKeepsReady | internal/outbox/relay.go:133-148 | A drain loses no event: each event that a PENDING record carried is carried by its new message |
| WorkerPools.WorkerPool.constructor | internal/worker/pool.go:60-94 | All defaults of the pool's configuration |
| WorkerPools.WorkerPool.ProcessMessage | internal/worker/pool.go:234-307 | Either the message was processed to the end: nothing at all behind the fence, otherwise one retry trace per active endpoint, and the repository those attempts lead to. Or a cancellation stopped it, before the endpoints were known, or after complete traces for some endpoints and a part of the next one's; only this event may have changed, and only to a final status. What was sent is one signed request per attempt, in order, with the ID and payload of the stored event, or of the message if none is stored, and each attempt records the answer to its request |
| WorkerPools.WorkerPool.DeliverToAll | internal/worker/pool.go:281-306 | The endpoint loop: complete traces for all endpoints, or for some and a cut-off delivery to the next; the requests of each trace went to its endpoint and carried this event |
| WorkerPools.WorkerPool.WorkOne | internal/worker/pool.go:148-155 | A message is acknowledged only after processing that was not cancelled; what was done to repository and queue, and what was sent, is one of the outcomes of processing and acknowledging |
| WorkerPools.WorkerPool.RecoverOne | internal/worker/pool.go:201-223 | The claim is counted; up to the ceiling the message is worked on, past it nothing is sent and its event goes to the DLQ unless a cancellation stops the write; the number of times it was processed stays the smaller of claims and ceiling, also when acknowledgements fail |
| WorkerPools.WorkerPool.GetActiveEndpoints | internal/worker/pool.go:250-262 | The active endpoints of the tenant, all of them and no others, each registration once |
| WorkerPools.ProcessingDecides | internal/worker/pool.go:247-307 | After uncancelled processing a PENDING event is still PENDING if and only if the message names no tenant or the tenant has no active endpoint that takes a request; no other event has changed |
| WorkerPools.LastEndpointDecides | internal/dispatcher/client.go:146-150 | With several endpoints, the last attempt on the last endpoint that takes a request decides the status |
| WorkerPools.WorkerPool.WorkBatch | internal/worker/pool.go:131-155 | A turn reads exactly the next batch, waiting for one up to the poll interval while others use the queue; it works on its messages one after the other until a cancellation; exactly the messages processed to the end are done, and with a broker that answers exactly those are forgotten |
| WorkerPools.WorkerPool.RecoverPass | internal/worker/pool.go:174-231 | A tick claims a batch of idle entries, counts each claim once, gives up exactly the messages claimed as often as the ceiling allows before, works on the others, and forgets exactly what was acknowledged |
| WorkerPools.RunOnceMore | internal/worker/pool.go:206-223 | Processing at a claim within the ceiling keeps runs equal to the smaller of claims and ceiling |
| WorkerPools.StillAtCeiling | internal/worker/pool.go:212-219 | A claim past the ceiling adds no run |
| WorkerPools.AckConcat | internal/queue/stream.go:488-490 | Acknowledging one by one equals acknowledging together |
| Dispatchers.Dispatcher.constructor | internal/dispatcher/client.go:35-47 | A policy without retries is replaced by the default policy |
| Dispatchers.Dispatcher.NewRequest | internal/dispatcher/client.go:79-91 | The request goes to the endpoint's URL with all five headers: it is JSON from this dispatcher, with the event's ID, the time, and the signature of time and payload under the endpoint's secret; its body is the payload |
| Dispatchers.SignedRequestsVerify | internal/dispatcher/client.go:79-91 | Whoever holds the endpoint's secret accepts every such request exactly within the tolerance |
| Dispatchers.Dispatcher.Dispatch | internal/dispatcher/client.go:68-171 | Exactly one signed request with the event's payload is sent to the endpoint, if one can be built; the attempt is its answer: SUCCESS on an error-free 2xx, RETRYING on a network error, 408, 429 or 5xx before MaxRetries, failed otherwise; uncancelled, the repository gains it and a final outcome becomes the status; cancelled, the attempt is unrecorded or a final one is recorded without its verdict, and no event has changed, so no failure caused by a cancellation reaches the DLQ |
| Dispatchers.Dispatcher.DeliverTo | internal/worker/pool.go:286-305 | Retry trace: attempts numbered 1 to k with k at most max(1, MaxRetries), all but the last retryable and RETRYING, the last SUCCESS exactly on an error-free 2xx; one request per attempt, in order; before each attempt but the first one draw from the interval up to the cap of that attempt; a cancellation leaves retried attempts and perhaps a final one without its verdict; the pool's own MaxRetries break is unreachable; all sleeps together stay within the sum of the caps of attempts 2 to MaxRetries |
| Dispatchers.AttemptsAreRecorded | internal/dispatcher/client.go:141-151 | After any sequence of attempts on an event exactly those are on record, the last final one decides the event's status, and nothing else has changed |
| Dispatchers.RetryTraceConcludes | internal/dispatcher/client.go:112-126 | A complete retry trace ends DELIVERED exactly if its last response succeeded, otherwise DLQ |
| Retry.CapStarts | internal/retry/scheduler.go:31-54 | The first interval is the smaller of InitialInterval and MaxInterval, five seconds and an hour where those are not positive |
| Retry.CapMultiplies | internal/retry/scheduler.go:46-56 | Exponential growth: with a whole multiplier each cap is that multiple of the one before, up to MaxInterval; a multiplier of at most one stands for two |
| Retry.CapMultipliesRounded | internal/retry/scheduler.go:46-56 | With any multiplier m the next cap is MaxInterval or lies within the rounding of m times the cap |
| Retry.CapBounds | internal/retry/scheduler.go:36-59 | For every policy and attempt the cap is positive and at most MaxInterval |
| Retry.CapMonotone | internal/retry/scheduler.go:51-56 | The cap never decreases with the attempt |
| Retry.CapReachesMax | internal/retry/scheduler.go:51-54 | However slow the growth, the cap reaches MaxInterval after finitely many attempts and stays there |
| Retry.BackoffWithinCapIff | internal/retry/scheduler.go:56-66 | The delay lies in [0, cap] exactly when the generator's draw does: a custom one is not clamped |
| Retry.SumOfCapsGrows | internal/retry/scheduler.go:31-67 | The total of the caps grows with the number of attempts |
| Retry.PowAtLeastBernoulli | internal/retry/scheduler.go:51 | Powers of the multiplier grow at least linearly |
| Dispatchers.Dispatcher.Backoff | internal/retry/scheduler.go:31-67 | With the default generator the delay is one draw from [0, cap] |
| Storage.CreateIsAllOrNothing | internal/storage/memory.go:131-172 | Creation with a fresh event ID is all or nothing, and succeeds exactly if the idempotency key is empty or unclaimed |
| Storage.FailedCreateRollsBackIff | internal/storage/memory.go:138-149 | A failing creation leaves the repository as it was exactly if it did not claim the key for an event ID already taken |
| Storage.TenantsShareKeyIff | internal/storage/memory.go:140 | Two tenants can claim the same composite key if and only if one ID, ended by the colon, is a prefix of the other |
| Storage.CompositeKeyInjective | internal/storage/memory.go:140 | Without colons in tenant IDs, composite keys tell both tenants and keys apart |
| Storage.CompositeKeyCollision | internal/storage/memory.go:140 | A tenant ID with a colon after its first character always has another tenant to share keys with |
| Storage.ReplayConserves | internal/storage/memory.go:309-341 | For any ID list, with repeats, foreign or missing IDs: the count, the events made PENDING and the fresh PENDING records, one per event and numbered above all earlier ones, are exactly those of the listed DLQ events of the tenant |
| Storage.Hits | internal/storage/memory.go:319-323 | The events a replay puts back: the listed replayable ones, each once |
| MemoryRepositories.MemoryRepository.constructor | internal/storage/memory.go:24-34 | An empty repository |
| MemoryRepositories.MemoryRepository.GetEndpointsByTenant | internal/storage/memory.go:115-129 | All endpoints of the tenant and no others |
| MemoryRepositories.MemoryRepository.CreateEventWithOutbox | internal/storage/memory.go:131-172 | The whole new state; a cancelled call changes nothing |
| MemoryRepositories.MemoryRepository.FetchAndLockPendingOutbox | internal/storage/memory.go:174-197 | The oldest PENDING records in ascending order, as many as the limit allows |
| MemoryRepositories.MemoryRepository.MarkOutboxPublished | internal/storage/memory.go:199-215 | The whole new state; an unknown record is an error |
| MemoryRepositories.MemoryRepository.RecordDeliveryAttempt | internal/storage/memory.go:217-234 | The whole new state; a known attempt ID is an error |
| MemoryRepositories.MemoryRepository.UpdateEventStatus | internal/storage/memory.go:236-250 | The whole new state; an unknown event is an error |
| MemoryRepositories.MemoryRepository.GetEvent | internal/storage/memory.go:252-270 | The stored event, or why there is none |
| MemoryRepositories.MemoryRepository.ReplayDLQEvents | internal/storage/memory.go:309-341 | The loop does what the specification function says |
| MemoryStreamQueues.MemoryStreamQueue.constructor | internal/queue/stream.go:273-277 | No stream, and every serial still unused |
| MemoryStreamQueues.MemoryStreamQueue.PublishEvent | internal/queue/stream.go:291-338 | One message with the next serial and the event's ID, tenant, type and payload at the end of the stream, and a fresh wakeup channel; an error changes nothing |
| MemoryStreamQueues.MemoryStreamQueue.CreateConsumerGroup | internal/queue/stream.go:340-373 | A new group starts at the end for "$" or no start, else at the beginning; an existing one stays |
| MemoryStreamQueues.MemoryStreamQueue.ReadPass | internal/queue/stream.go:395-437 | One pass: exactly the next batch past the cursor, now pending, and the cursor past it |
| MemoryStreamQueues.MemoryStreamQueue.ReadEvents | internal/queue/stream.go:375-459 | The wait loop terminates because the clock advances to the deadline, and returns exactly the next batch of the queue as its last pass found it, whatever others do while it waits: the messages that follow the cursor, as many as asked for, ten by default, or all that are left; a non-empty batch is returned at once, an empty one of a blocking read only after the whole blocking time; without blocking or without others the queue is as at the call |
| Queue.BatchIs | internal/queue/stream.go:407-432 | A batch has as many messages as asked for, ten by default, or all that are left, and its i-th message is the i-th one past the cursor |
| Queue.NewGroupReads | internal/queue/stream.go:358-370 | A group created at "$" or without a start reads what is published afterwards, any other one everything in the stream |
| Queue.ClaimTakes | internal/queue/stream.go:516-540 | A claim takes idle entries only, each once, and as many as asked for, ten by default, or all idle ones |
| MemoryStreamQueues.MemoryStreamQueue.AckEvent | internal/queue/stream.go:461-493 | Exactly the named entries are forgotten |
| MemoryStreamQueues.MemoryStreamQueue.DeleteEntries | internal/queue/stream.go:488-490 | The deletion loop in full |
| MemoryStreamQueues.MemoryStreamQueue.DeliverNext | internal/queue/stream.go:407-432 | The delivery loop in full |
| MemoryStreamQueues.MemoryStreamQueue.ClaimIdle | internal/queue/stream.go:522-540 | Idle entries, distinct, at most a batch and all if fewer, are leased anew |
| MemoryStreamQueues.MemoryStreamQueue.AutoClaim | internal/queue/stream.go:495-541 | The claimed messages are such a choice, and only their leases have changed |
| MessageIds.PrintedIdsDiffer | internal/queue/stream.go:305-307 | Printed message IDs tell messages apart |
| QueueRuns.GroupConservation | internal/queue/stream.go:305-541 | On every run of calls by any consumers: message IDs are distinct, what a group's reads returned is exactly the delivered segment of the log in order, and that segment splits into acknowledged and pending without overlap |
| QueueRuns.LeaseSpacing | internal/queue/stream.go:416-430 | Any two hand-outs of one message in a group are at least the minimum idle time apart |
| QueueRuns.ClaimKeepsPendingSet | internal/queue/stream.go:525-538 | A claim never changes which messages are pending |
| QueueRuns.CallsAreLocal | internal/queue/stream.go:291-541 | A call on one stream does to it what the stream-level function says, and leaves the others |
| ReaderWait.NoLostWakeup | internal/queue/stream.go:396-457 | For any interleaving of publishers and readers, a reader whose channel is open has nothing to read, and the next publication closes the channel of every waiting reader |
| ReaderWait.Run | internal/queue/stream.go:332-335 | Every interleaving keeps the invariant of channels and cursors |
| Queue.PublishKeepsStreams | internal/queue/stream.go:305-330 | Publishing keeps serials ascending and every group's entries within its delivered segment |
| Queue.ReadKeepsStreams | internal/queue/stream.go:399-432 | So does reading |
| Relays.Relay.constructor | internal/outbox/relay.go:24-34 | The default stream name |
| Relays.Relay.PublishOne | internal/outbox/relay.go:61-87 | A cancellation may stop between publishing and marking; the record is marked only after its message, with the next serial, is in the stream |
| Relays.Relay.ProcessNextBatch | internal/outbox/relay.go:44-90 | At every exit the messages of a prefix of the batch are in the stream and all of them but the last are marked; uncancelled, the whole oldest batch is |
| Relays.Relay.Drain | internal/outbox/relay.go:133-148 | A drain terminates, and uncancelled it extends the stream by exactly the events of the PENDING records in ascending order, each once, and leaves none PENDING |
| Relays.BatchShrinksPending | internal/outbox/relay.go:133-148 | A short batch was the last one and every other batch leaves fewer PENDING records |
| MemoryGuards.MemoryGuard.constructor | internal/idempotency/guard.go:165-170 | No key is locked or cached |
| MemoryGuards.MemoryGuard.AcquireLock | internal/idempotency/guard.go:176-212 | A live cached response is replayed, a live lock refuses, anything else is locked anew until now + ttl |
| Guard.AcquiredIff | internal/idempotency/guard.go:190-211 | The lock is granted if and only if the key has no entry, its entry has expired, or it is neither in flight nor answered |
| MemoryGuards.MemoryGuard.SetResponse | internal/idempotency/guard.go:214-243 | The entry holds the response and is no longer in flight |
| MemoryGuards.MemoryGuard.ReleaseLock | internal/idempotency/guard.go:245-261 | Only an entry in flight is removed |
| Guard.CachedResponseIsStable | internal/idempotency/guard.go:190-211 | Once cached, every acquire before the expiry replays that response, whatever late releases and other calls come between |
| Guard.LockIsExclusive | internal/idempotency/guard.go:190-211 | Between an acquire and the next release, completion or expiry of the key no second acquire succeeds |
| Guard.OnlyReleaseFreesLock | internal/idempotency/guard.go:256-259 | The one call that lets a second holder in before expiry is a release of the key, by whichever request |
| Ingest.IdempotentIngest | internal/api/handler.go:107-217 | For any interleaving of requests, expiries, failures and background work: at most one event per composite key, the index agrees with a scan of the events, and every 202 for a key carries that event's ID |
| Ingest.CachedAnswerIsStable | internal/api/handler.go:182-192 | Before its expiry a cached answer is replayed on every run, whatever late releases and duplicate-key failures happen |
| Ingest.AnswerExpires | internal/idempotency/guard.go:190-211 | For every key, event and times: after a run that answered a request, the next request for the key is answered with it before the expiry and takes the lock from then on |
| Ingest.NextKeepsInv | internal/api/handler.go:107-217 | Every step of the protocol keeps index, guard, requests and answers consistent |
| Ingest.LockIsExclusive | internal/api/handler.go:110-128 | Mutual exclusion: from a state in which no other unfinished request has locked the key, on every run without the holder's own release or completion and before its lock expires, the holder stays the only one and every other request for the key is refused |
| Ingest.HolderStaysIff | internal/idempotency/guard.go:176-261 | The only steps that end such a state are the holder's release, its completion, and an acquisition after expiry |
| Ingest.TakingLockHolds | internal/idempotency/guard.go:190-211 | A request that takes the lock is such a holder if no other unfinished request has locked the key |
| Handlers.Handler.HandleIngestEvent | internal/api/handler.go:95-217 | The handler is a run of the protocol that consists of this request's actions alone, none of which fails without a cancellation. Uncancelled, the answer is decided by the old guard entry, the body and the old index: a live cached response is replayed, a live lock gives 409, a body that is not acceptable 400, a claimed key 409, anything else 202; and so is the entry left behind: none after a failure that held the lock, the cached 202 after success. The event is filed with the request's type and payload and one PENDING record exactly in the last case |
| Handlers.Handler.Admit | internal/api/handler.go:130-217 | The part behind the lock: validation, creation, and giving the lock up |
| Handlers.Handler.Lock | internal/api/handler.go:110-128 | Acquiring is one lock action of this request, and so is its refusal or replay; which of them depends on the old entry of the key and its expiry |
| Handlers.Handler.Persist | internal/api/handler.go:160-216 | Creation, completion and answer are actions of this request alone; the event is filed with this type and payload and one PENDING record, or nothing is |
| Handlers.Handler.Release | internal/api/handler.go:182-192 | A failing request takes one failing action of its own, which leaves the guard alone unless it has taken a lock |
| Handlers.Handler.HandleReplayDLQ | internal/api/handler.go:346-384 | A replay takes place exactly for a named tenant and 1 to 100 IDs |
| Signatures.SignatureRoundTrip | internal/dispatcher/hmac.go:15-69 | For all 64-bit timestamps, tolerances and clocks, a signed header verifies exactly if no tolerance is set, or the true distance is within it, or within it of 2^64, where the wrapped difference passes |
| Signatures.SignatureRoundTripInRange | internal/dispatcher/hmac.go:54-60 | With clock and tolerance below 2^62 the wraparound never matters |
| Signatures.SignedHeaderAcceptedIff | internal/dispatcher/hmac.go:62-68 | A signed header verifies under another secret and payload exactly if it is in time and the two MACs coincide |
| Signatures.ToSignInjective | internal/dispatcher/hmac.go:16 | Different timestamps or payloads are never signed as the same text |
| Signatures.InTimeExactly | internal/dispatcher/hmac.go:54-60 | What the wrapped-around check accepts, in terms of the true distance |
| Signatures.VerifySignature | internal/dispatcher/hmac.go:26-69 | The parsing loop and the checks accept exactly what the specification accepts: last field of each name wins, missing or empty fields and bad numbers are refused |
| Signatures.VerifySignatureWithSecrets | internal/dispatcher/hmac.go:73-83 | Accepted exactly if some non-empty candidate secret verifies |
| Signatures.SdkVerifySignature | sdk/go/webhookclient/signature.go:26-71 | The same for the trimming, case-folding verifier |
| Signatures.GoVerifiersAgree | sdk/go/webhookclient/signature.go:31-70 | On ASCII headers without white space and with a secret, the engine accepts exactly what the SDK accepts without an upper-case letter in the signature |
| Signatures.FieldIs | sdk/go/webhookclient/signature.go:31-48 | A header field is the value of the last part of its name among the parts between the commas, each split at its first equals sign, or empty; the SDK trims names and values, the engine does not |
| Signatures.SignedBytes | internal/dispatcher/hmac.go:16-17 | The signed bytes are the printed timestamp, a dot, and the payload |
| Signatures.FieldSpaceFree | sdk/go/webhookclient/signature.go:41-48 | Trimming makes no difference to a header without white space |
| SignaturesTs.ConstantTimeEqual | sdk/typescript/src/signature.ts:6-17 | The fold over lengths and character codes is equality |
| SignaturesTs.BuildToSignBytes | sdk/typescript/src/signature.ts:22-31 | The filled array is the timestamp as JavaScript prints it, a dot, and the payload |
| SignaturesTs.ComputeHmacSha256Hex | sdk/typescript/src/signature.ts:36-65 | Padded base-16 bytes are the hexadecimal text |
| SignaturesTs.ParseHeader | sdk/typescript/src/signature.ts:92-129 | Fields as in the Go SDK; the timestamp is an optional minus and digits, rounded to a number |
| SignaturesTs.Verify | sdk/typescript/src/signature.ts:153-211 | Accepts exactly what the specification accepts, with the defaults for tolerance and clock, which may be any reals, for any monotone rounding that leaves integers up to 2^53 alone and any printing that is decimal on the safe ones |
| SignaturesTs.SafeDifference | sdk/typescript/src/signature.ts:197-203 | The difference of two safe integers may be rounded, but never into a safe tolerance |
| SignaturesTs.ParsersAgree | sdk/typescript/src/signature.ts:119-124 | On numbers of safe size the two parsers differ in a leading plus sign only |
| SignaturesTs.SdksAgree | sdk/typescript/src/signature.ts:197-210 | On every ASCII header with a timestamp, clock and tolerance of safe size, the TypeScript SDK accepts exactly what the Go SDK accepts without a plus sign |
| SignaturesTs.VerifiersAgree | sdk/typescript/src/signature.ts:92-211 | All three verifiers agree on ASCII headers without white space, upper-case signature letters or a plus sign, with a secret and safe numbers |
| SignaturesTs.Sign | sdk/typescript/src/signature.ts:79-87 | The header is the printed timestamp and the hexadecimal MAC of the signed bytes |
| SignaturesTs.SignersAgree | sdk/typescript/src/signature.ts:69-87 | For safe timestamps the TypeScript SDK signs byte for byte what the engine signs, and all three verifiers accept it exactly if no tolerance is set or the distance is within it |
| Text.DecRoundTrip | internal/dispatcher/hmac.go:49-52 | Parsing a printed integer gives it back exactly if it fits 64 bits |
| Text.DecNatAt | internal/dispatcher/hmac.go:16 | The digits of a printed number, and no leading zero |
| Text.ParseInt64Iff | internal/dispatcher/hmac.go:49-52 | Parsing succeeds exactly on an optional sign and at least one digit whose value fits 64 bits |
| Text.ValueConcat | internal/dispatcher/hmac.go:49-52 | Digits have the place value of ten |
| Text.HexAt | internal/dispatcher/hmac.go:19-20 | Two lower-case digits for each byte, the high one first |
| Text.TrimIs | sdk/go/webhookclient/signature.go:41-42 | Trimming takes off exactly the white space at the two ends |
| Text.LowerAt | sdk/go/webhookclient/signature.go:66-69 | Each capital becomes its small letter, nothing else changes |
| Text.HexInjective | internal/dispatcher/hmac.go:19 | Hexadecimal text determines the bytes |
| Text.SplitJoins | internal/dispatcher/hmac.go:31 | The parts of a split are free of the separator and joined by it give the text back |
| Text.KeyValueOf | internal/dispatcher/hmac.go:34-37 | A key and a value joined by the first equals sign are taken apart again |

## Where the promises end

The model follows the code. Each of these edges has a lemma with a run from the empty state, or an
input, that reaches it; the lines of the documentation that promise more are cited.

- Zero loss (line 31 of the repository's own README.md) and delivery at least once (line 78 there) fail for an event whose tenant has no active endpoint that takes a request: its message is acknowledged while the event stays PENDING (`LossIsReachable`, and exactly when in `ProcessingDecides`). It costs other tenants nothing (`NoEventOfTenantIsLost`).
- The zombie fence (internal/worker/pool.go:239-240) does not make DELIVERED final (`DeliveredTurnsDLQ`, and exactly what overrides it in `FinalStatusChangesIff`).
- `FetchAndLockPendingOutbox` (internal/storage/memory.go:174) takes no lasting lock, so two relays may publish one record twice (`RecordPublishedTwice`), and so may a single one that crashes between publishing and marking (`CrashedRelayPublishesTwice`). `PublishesAgainIff` says exactly when a publication is a second one, on every run; `BoundedDuplication` holds nevertheless.
- Two consumers that are past the fence with one event deliver it twice (`OverlapDuplicates`); without such an overlap an event has one completed round for its creation and for each replay at most (`BoundedDuplication`).
- The idempotency lock can be released by a request that no longer holds it (`StaleReleaseFreesLock`; without another unfinished request that has locked the key the lock is exclusive, `Ingest.LockIsExclusive`); one event per key holds nevertheless (`IdempotentIngest`).
- The tolerance check of the Go verifiers (internal/dispatcher/hmac.go:23-24) wraps around at 64 bits and accepts time stamps almost 2^64 seconds away (`WraparoundAccepts`, and exactly which in `InTimeExactly`).
- `MemoryRepository.CreateEventWithOutbox` claims the idempotency key before it finds the event ID taken (`DuplicateIdClaimsKey`, and exactly when in `FailedCreateRollsBackIff`); the handler generates its IDs, so ingestion is all or nothing (`CreateIsAllOrNothing`).

## Left out

- The Redis guard and queue and the PostgreSQL repository: their behaviour is that of Lua scripts, stream commands with trimming, and SQL.
- HTTP transport, JSON, DNS, SSRF checks, metrics, the attempt callback, the event stream for browsers, command-line programs and the SDKs' HTTP clients.
- Time stamps in records, response bodies and error messages: no decision modelled here reads them.
- The poll and backoff waits in the relay's `Start` and the worker's 20 ms pause after a read error: they only delay the calls that are modelled.
- The branch of the relay for a record whose event is gone (internal/outbox/relay.go:68-72): `Pipeline` has it as dropping the record from the batch; in `Relay.PublishOne` it cannot be taken, because events are never deleted and every record belongs to a stored one.
- `Start`, `Stop` and `Shutdown` of the pool: compare-and-swap flags and goroutine bookkeeping.
- Retry.CalculateBackoff: arithmetic over ideal reals with floor; the rounding of 64-bit floats is not modelled.
- Guard.LockIsExclusive: assumes that nobody releases the key meanwhile, because the guard does not check who holds the lock; `OnlyReleaseFreesLock` says that this is the one exception, and `Ingest.LockIsExclusive` who can make it.
- Storage.CreateIsAllOrNothing: assumes a fresh event ID, as the handler generates one; `FailedCreateRollsBackIff` says what happens otherwise.
- Pipeline: the choice of a claim past the ceiling is free in every step of a consumer, so it covers every counter; the counting itself is `WorkerPool.RecoverOne`.
- Duplication.BoundedDuplication: assumes that the event is not delivered by two consumers at once; `OverlapDuplicates` shows that the bound fails without that.
- Quiescence.Quiesce: one relay, one worker and one reclaimer after another, with a broker that answers acknowledgements and endpoint registrations that no longer change; nobody else uses the queue.
- WorkerPools.WorkerPool.WorkBatch: while it waits for messages others use the queue, but the repository is as the turn found it when the work begins; interleavings with other users of the repository are those of `Pipeline`.
- SignaturesTs.Verify: the values NaN and infinity for clock, tolerance and timestamp, and promises, which are plain results here.
- Text: trimming and case folding are those of ASCII text; other Unicode white space and letters are not modelled.
- Text.ParseInt64: the error value is not modelled, only that there is one.
