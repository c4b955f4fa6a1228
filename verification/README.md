# Verified model of the reliable notifier's delivery protocol

A Dafny model of the notification service: deliveries are accepted into PostgreSQL together with an
Outbox event, a Publisher turns events into identifier-only broker signals, Workers claim a delivery
under a lease, send it and commit a fenced result, and maintenance passes schedule retries, recover
expired leases, republish stalled signals and delete old rows. Everything below is proved by the
Dafny verifier (`dafny verify dfyconfig.toml`).

## How it is organised

| file | content |
|---|---|
| `Model.dfy`, `Statements.dfy` | the tables, and each committed SQL statement as a function on them |
| `Store.dfy` | the store object; every method is proved to do exactly what its statement function says |
| `Protocol.dfy` | database, broker, Worker handlers, Publisher cycles and clock as one transition system |
| `Records.dfy`, `Invariant.dfy`, `Preservation.dfy` | the invariant, and its proof step by step |
| `Coverage.dfy` | the extra invariant of runs in which the broker loses nothing |
| `Guarantees.dfy`, `Transitions.dfy` | the promises about every run and every reachable state, and the exact relation between a row's statuses |
| `Runs.dfy`, `Watchdog.dfy` | following runs, and which numbers of watchdog resets occur |
| `Timeliness.dfy` | how late a signal can be in a run that misses no pass |
| `OutboxLeases.dfy` | which events can carry a Publisher cycle's token, under every interleaving |
| `Admission.dfy` | idempotent submission as a keyed map, and the backlog bound |
| `LossRecovery.dfy`, `Drain.dfy` | what the database can do alone after broker loss, and draining |
| `Publisher.dfy` | one Publisher cycle over the store and broker objects |
| `LimiterLaws.dfy`, `Limiter.dfy` | the destination limiter: its laws under every interleaving, and the object |
| `Worker.dfy`, `RetryPolicy.dfy` | `Process`, `processMessage`, classification and retry times |
| `Capacity.dfy` | limiter and handlers together: how many handlers are busy for a destination |
| `Refinement.dfy` | `Process` and `processMessage` refine a handler of the protocol under every interleaving |
| `RequestHash.dfy`, `Text.dfy` | canonical headers and the byte stream that is hashed |

Modelling decisions:

- One committed statement or transaction is one atomic step. `Process`, `processMessage` and `RunOnce`
  are sequences of steps; any other step can fall between them, a handler or cycle can end after any
  of them, and a store or broker call can fail although it took effect.
- The child tables all reference `deliveries(id)` ON DELETE CASCADE, so child rows are kept beside
  their delivery. An Outbox event is named by (delivery, generation), which is UNIQUE.
- `statement_timestamp()` and `clock_timestamp()` are separate readings in the statements that mix
  them. Times set by the Go process (acceptance, next attempt, started, finished) are arbitrary.
- Statements with LIMIT and SKIP LOCKED may take any set of matching rows in the protocol; the store
  methods take exactly LIMIT of the unlocked ones, or all if there are fewer.
- Delivery ids are never handed out twice. Lease tokens need no such assumption in the protocol: its
  fencing results hold even if tokens and owners repeat. Only `TokenGone` and `TokensSettled` ask for
  tokens that are new.
- The code also moves a waiting row to `failed_permanent` when its retry deadline passes
  (internal/delivery/scheduling.go:13-20); the list of transitions in docs/architecture.md does not
  have that one. The model follows the code: `StatusChanges` gives the relation that holds and
  `UndocumentedOccurs` a step that leaves the list.
- A maintenance statement may have started before other commits, since FOR UPDATE reads the newest
  version of a row; its `statement_timestamp()` is only bounded by its own clock readings. A run is
  called serial if no maintenance statement overlaps another commit.
- The watchdog statement compares the retry deadline with `statement_timestamp()` and the interval with
  `clock_timestamp()`, so a reset can end after the deadline. `ResetsExact` and `SerialResetsExact` say
  how many resets occur, for every watchdog, with and without overlapping statements.

## Model

| member | source | states |
|---|---|---|
| Guarantees.AckIsFinal | internal/worker/rabbit.go:126-148 | a message acknowledged without a replacement can never be claimed again, in any continuation of any run |
| Guarantees.ClaimedOnce | internal/delivery/worker_store.go:102-114 | no two steps of a run commit a claim of the same generation of a delivery, under any duplication of signals |
| Guarantees.OneAttemptPerGeneration | internal/delivery/worker_store.go:244-268 | attempt rows of a delivery have strictly increasing generations up to its current one, though no unique index demands it |
| Guarantees.SendsBounded | internal/worker/worker.go:112-130 | a delivery in generation g has been sent at most g + 1 times |
| Guarantees.FencingIsExact | internal/delivery/worker_store.go:204-243 | for a result of Process, matching id, generation and state means the row carries that claim's lease; the fenced update misses exactly when the lease is gone or expired, never by its deadline clause |
| Guarantees.Conservation | internal/delivery/worker_store.go:207-215 | generation = retryable attempts + replay audits; succeeded exactly when there is one succeeded attempt, of the current generation |
| Guarantees.EventNotEarly | internal/delivery/scheduling.go:22-53 | the current event of a waiting delivery is not available before next_attempt_at |
| Guarantees.SignalNotEarly | internal/delivery/outbox.go:36-53 | no message in queue, handler or deferral is ahead of its delivery, or of a waiting generation that is not due |
| Guarantees.OutboxFrontier | internal/delivery/scheduling.go:22-53 | no event ahead of its delivery, no lease on a published event, recovery and replay inserts never meet their unique keys, and the scheduler's generation > 0 filter strands nothing |
| Guarantees.WatchdogBounded | internal/delivery/maintenance.go:25-59 | of n resets in one retry cycle the ones that end before the deadline satisfy (n - late) * watchdog < 24h, however statements overlap, and all n satisfy n * watchdog < 24h plus the duration of the last one |
| Watchdog.ResetsExact | internal/delivery/maintenance.go:25-59 | for every configuration, some reachable state has exactly n resets, l of them late, if and only if l <= n and (n - l) * watchdog < 24h |
| Watchdog.OverlapUnbounded | internal/delivery/maintenance.go:32-36 | with overlapping statements every number of resets occurs |
| Watchdog.SerialBounded | internal/delivery/maintenance.go:25-59 | in every serial run at most one reset of a cycle is late, so (n - 1) * watchdog < 24h |
| Watchdog.SerialResetsExact | internal/delivery/maintenance.go:25-59 | for every configuration, n resets of one cycle occur in a serial run if and only if n = 0 or (n - 1) * watchdog < 24h |
| Watchdog.DayIsExceeded | internal/delivery/maintenance.go:32-36 | for every watchdog a serial run reaches a state in which n * watchdog is 24h or more |
| Watchdog.MinuteResets | cmd/notifier/scheduling.go:22-25 | with the one-minute watchdog, serial runs reach 1440 resets and never 1441 |
| Transitions.StatusChanges | docs/architecture.md:142-168 | in every reachable state, every step that can be taken moves a row's status along a documented pair, and by exactly the step that belongs to it, or fails a waiting row permanently, if and only if the retry scheduler finds its deadline passed; the generation advances by one exactly on the way back to pending; rows appear waiting in generation 0 and go away only when terminal |
| Transitions.UndocumentedOccurs | internal/delivery/scheduling.go:12-20 | for every configuration a reachable state and a step that take a pending row to failed_permanent |
| Transitions.SuccessIsFinal | docs/architecture.md:153-154 | in every continuation a succeeded row is still succeeded in the same generation, or gone for good |
| Guarantees.NoLossNoWatchdog | internal/dispatch/publisher.go:61-76 | without broker loss, a waiting unexpired delivery whose event is marked published still has a message |
| Guarantees.SendsDisjoint | internal/delivery/scheduling.go:82-110 | sends of one delivery that end within their lease never overlap, across retries, recoveries and replays |
| Guarantees.SucceededWasSent | docs/architecture.md:242 | in every reachable state a succeeded delivery's generation was claimed and its send had returned after the claim |
| Guarantees.RecoveryRecordsClaim | internal/delivery/scheduling.go:73-118 | the attempt row written by lease recovery carries the generation, token and instant of the lost claim, and is finished only after that lease ran out |
| Preservation.ReachableInv | docs/architecture.md:241-260 | the protocol invariant holds in every reachable state |
| Preservation.StepKeeps | docs/architecture.md:241-260 | every step keeps the invariant and moves every record, claim and send record one way |
| Coverage.ReachableCoverage | internal/worker/rabbit.go:133-143 | until a message is lost, every published current event, confirmed publication and replaced message is covered by a live message or dead |
| Admission.SubmitRefinesMap | internal/delivery/store.go:121-154 | Submit changes the entry of its key as submission to a map does: lookup first, then capacity, then insert |
| Admission.SubmitKeepsOtherEntries | internal/delivery/store.go:176-228 | Submit leaves the entry of every other key alone |
| Admission.SameDeliveryWhileItLives | internal/delivery/store.go:125-139 | in every continuation, while the row lives, a submit under its key answers its id or a conflict and changes nothing, even at capacity |
| Admission.BacklogBounded | internal/delivery/store.go:144-154 | active deliveries never exceed the limit plus the committed replays |
| LossRecovery.RecoversFromLoss | internal/delivery/maintenance.go:25-59 | from every reachable state, whatever the broker holds, a waiting delivery with a watchdog interval to spare has an explicit continuation that enqueues its signal within that interval of being due and then claims it |
| Timeliness.SignalInTime | cmd/notifier/scheduling.go:8-25 | from every reachable state, in every run in which each of the scheduling, reconciling and claiming passes comes once per window and a taken event is published within one, whatever the broker loses: by one Publisher lease plus one watchdog interval from now, or the due time if later, plus three windows, the signal is enqueued or seen by a Worker, or the delivery waits for it no longer |
| Drain.ScheduleSplits | internal/delivery/scheduling.go:12-53 | the statement on one snapshot equals running its two parts one after the other, in either order |
| Drain.PassesDrain | internal/delivery/scheduling.go:73-118 | in every run that adds nothing and whose passes started after all was past, j full recovery passes leave at most the delivering rows that j * limit did not cover, whatever interleaves, and exactly those if there is no other pass |
| Drain.Drains | internal/delivery/scheduling.go:12-20 | such a run with one scheduling pass anywhere leaves nothing active if the passes cover every delivering row, and only then if there is no other pass |
| Drain.ScheduleDrains | internal/delivery/scheduling.go:12-20 | such a run never adds a waiting row, and one scheduling pass ends all of them |
| Drain.ReachablePast | internal/delivery/scheduling.go:73-87 | the draining hypothesis holds of every reachable state once the clock is past every lease and deadline |
| Store.DeliveryStore.Submit | internal/delivery/store.go:112-245 | answer and new tables: existing id, conflict, capacity, or a new delivery with its generation 0 event |
| Store.DeliveryStore.CountActive | internal/delivery/store.go:144-151 | counts the rows that are pending or delivering |
| Store.DeliveryStore.FindByKey | internal/delivery/store.go:425-439 | finds the row filed under (caller, key) if there is one |
| Store.DeliveryStore.Replay | internal/delivery/replay.go:13-144 | exactly a permanently failed row is replayed, by a known operator and with a reason of 1 to 1000 characters, with audit and event; each refusal changes nothing |
| Store.DeliveryStore.EligibleDestination | internal/delivery/worker_store.go:29-52 | answers with the bound destination exactly when the signal is claimable and the version can be read; a stale signal is told apart from a failed read |
| Store.DeliveryStore.ObserveSignal | internal/delivery/worker_store.go:54-75 | records the observation on the current event of a claimable delivery and nothing else |
| Store.DeliveryStore.ClaimDelivery | internal/delivery/worker_store.go:77-168 | leases the row exactly when claimable and the destination can be read; bad parameters, stale signals and a failed read change nothing |
| Store.DeliveryStore.CompleteResult | internal/delivery/worker_store.go:186-273 | fenced transition plus attempt row, or nothing; lease loss and a refused attempt row told apart |
| Store.DeliveryStore.ScheduleDueRetries | internal/delivery/scheduling.go:8-59 | fails every exhausted row and adds events for LIMIT unlocked due rows, returning their number |
| Store.DeliveryStore.RecoverExpiredDeliveries | internal/delivery/scheduling.go:61-191 | recovers LIMIT unlocked expired rows with attempt and event, and counts them |
| Store.DeliveryStore.ReconcileStalledSignals | internal/delivery/maintenance.go:17-64 | resets the events of LIMIT unlocked stalled deliveries |
| Store.DeliveryStore.DeleteExpiredTerminal | internal/delivery/maintenance.go:66-100 | deletes LIMIT unlocked retired terminal rows and no other |
| Store.DeliveryStore.DrainRetention | cmd/notifier/scheduling.go:44-64 | whatever the batch size, clock readings, locks, failure or cancellation, only rows retired by the last reading go, each counted once unless its batch committed and then failed; after a regular end all of them that were not locked then have gone |
| Store.DeliveryStore.ClaimOutbox | internal/delivery/outbox.go:23-85 | leases up to LIMIT distinct unlocked candidates, all of them if fewer, and returns them |
| Store.DeliveryStore.MarkOutboxPublished | internal/delivery/outbox.go:87-109 | publishes exactly under the unexpired lease named |
| Store.DeliveryStore.ReleaseOutbox | internal/delivery/outbox.go:111-144 | takes the named lease off an unpublished event; an already published one counts as released |
| OutboxPublisher.Publisher.RunOnce | internal/dispatch/publisher.go:50-78 | the count is the length of the longest run of confirmed and marked events, and database and queue are exactly those of such a cycle; a failing claim publishes nothing and leaves leases only if it committed |
| OutboxPublisher.Publisher.ReleaseRemaining | internal/dispatch/publisher.go:80-86 | releases the rest of the batch call by call, ignoring errors |
| OutboxPublisher.MarkedPrefix | internal/dispatch/publisher.go:61-76 | the marked events are a prefix of the batch; beyond it only the next one can be published, by an ambiguous mark |
| OutboxPublisher.NeverUnpublishes | internal/delivery/outbox.go:111-144 | releasing the rest leaves every published event exactly as it is |
| OutboxPublisher.TokenGone | internal/dispatch/publisher.go:80-86 | if the releases go through, no event carries this cycle's token any more |
| OutboxLeases.TokensSettled | internal/dispatch/publisher.go:50-86 | in every run with new tokens, however cycles and other steps interleave, an event with the token of a live cycle is one the cycle has not reached yet or one whose release did not reach the database |
| LimiterLaws.ReservationsSpaced | internal/worker/limiter.go:42-63 | under every interleaving, n reservations not rolled back, granted once interval I is in force, span at least (n-1) * I |
| LimiterLaws.RateHonoured | internal/worker/limiter.go:102-106 | n reservations not rolled back, granted at a configured rate of at most r, number at most r times the elapsed time plus one, up to the nanosecond per permit lost by truncation |
| LimiterLaws.RollbackExact | internal/worker/limiter.go:126-138 | for an unreleased permit the sequence test implies the nextAllowed test, and rollback restores exactly the earlier value |
| LimiterLaws.ConcurrencyBounded | internal/worker/limiter.go:49-53 | active is the number of unreleased permits, and right after a grant within every concurrency limit seen |
| Capacity.HandlersBounded | internal/worker/worker.go:107-127 | under every interleaving of handlers, the limiter and everything else, exactly the handlers between permit and release hold one, for the destination of their delivery, as many as the limiter counts, and never more than the largest limit set for it |
| Capacity.GrantWithinLimits | internal/worker/limiter.go:49-53 | right after a permit is granted the busy handlers of the destination are within every limit ever set for it |
| Limiter.DestinationLimiter.TryAcquire | internal/worker/limiter.go:42-63 | grants exactly when the tightened limit allows it, with the permit's reservation, leaving other destinations alone |
| Limiter.DestinationLimiter.StateFor | internal/worker/limiter.go:95-124 | creates the destination's state or keeps the stricter limits, with the defaults for non-positive settings and the interval of the rate, leaving others alone |
| Limiter.Permit.Release | internal/worker/limiter.go:126-141 | gives the slot back once; a second release does nothing |
| WorkerProcess.DeliveryWorker.Process | internal/worker/worker.go:87-173 | the verdict of every path; every permit is released once; Send runs on one path only, inside a slot within the limit, and its result call carries the claim's lease and the fitting outcome |
| WorkerProcess.DeliveryWorker.HoldPermit | internal/worker/worker.go:112-173 | with a permit in hand: released on every path, rolled back exactly when nothing was claimed |
| WorkerProcess.DeliveryWorker.Attempted | internal/worker/worker.go:129-160 | success, retry before the deadline, or permanent failure, as Send's answer and the deadline decide, with the error category that belongs to it |
| Refinement.HandlerRefines | internal/worker/worker.go:87-173 | under every interleaving, a handler whose calls are answered as in a script carries the result call that Process made, and ends about to ACK, to ACK after a deferral or to NACK exactly as the script's verdict says |
| Refinement.OwnStep | internal/worker/worker.go:151-160 | every call that Process makes next is a step the protocol allows its handler |
| Refinement.ScriptRuns | internal/worker/rabbit.go:126-148 | every script whose answers the store can give yields a valid run of the handler that settles its message |
| WorkerProcess.ProcessMessage | internal/worker/rabbit.go:108-149 | one settling call per message; dead-letter only if unreadable; ACK only on Process's word or after a confirmed replacement; an error exactly on requeueing or when the settling call fails |
| RetryPolicy.IsSuccess | internal/worker/worker.go:255-265 | 2xx by default, else membership in the configured statuses |
| RetryPolicy.Classify | internal/worker/worker.go:183-202 | when a result is a success and when it is retryable, errors first and configured successes before retry rules |
| RetryPolicy.NextAttemptBounded | internal/worker/worker.go:204-217 | never in the past, never more than an hour away, below the backoff ceiling without Retry-After |
| RetryPolicy.CeilingDoubles | internal/worker/worker.go:208-215 | the ceiling is min(2^generation seconds, 1 hour) for every generation |
| RetryPolicy.RetryAfterRoundTrip | internal/worker/worker.go:219-242 | the decimal text of any integer, in any ASCII white space, is waited for exactly up to an hour if it is not negative and fits 64 bits; a negative one is ignored and a longer one is left to the date reading |
| RetryPolicy.LongerWaitsLonger | internal/worker/worker.go:204-233 | asking for a longer wait never makes the next attempt earlier, for all 64-bit numbers of seconds |
| Text.FormatRoundTrip | internal/delivery/hash.go:39 | the decimal text of an integer is read back as that integer exactly when it fits 64 bits |
| RequestHash.CanonicalCallerHeaders | internal/delivery/hash.go:52-65 | success and result do not depend on map order; each error is only given for a defect that is there |
| RequestHash.CanonUnique | internal/delivery/hash.go:52-65 | a set of headers has one canonical map |
| RequestHash.CanonIdempotent | internal/delivery/hash.go:52-65 | the canonical map is accepted and is its own canonical map |
| RequestHash.NamesAreTokens | internal/delivery/hash.go:67-78 | the bytes accepted in a header name are the token characters of section 5.6.2 of RFC 9110 |
| RequestHash.SortedNames | internal/delivery/hash.go:31-35 | the names once each in byte order |
| RequestHash.ListsUnique | internal/delivery/hash.go:31-35 | only one sequence lists a set of names in byte order |
| RequestHash.RequestStream | internal/delivery/hash.go:26-45 | the bytes written to the digest are the framed fields of the canonical request, or an error exactly for a defective header |
| RequestHash.Write | internal/delivery/hash.go:90-95 | appends one length-delimited field |
| RequestHash.StreamInjective | internal/delivery/hash.go:90-95 | the framing is injective on sequences of fields |
| RequestHash.StreamIdentifiesRequest | internal/delivery/hash.go:26-50 | two requests give the same bytes exactly when destination, version, upper-case method, canonical headers and body agree |
| RequestHash.DigestIdentifiesRequest | internal/delivery/hash.go:37-49 | the same for the digests, if the digest does not collide on the two streams |

## Left out

- PostgreSQL, pgx and RabbitMQ themselves: a committed statement is an atomic step and a confirmed publication is in the queue.
- Outbound HTTPS, DNS, TLS, secrets and address policy: Send is an arbitrary answer of status, Retry-After and error.
- HTTP handlers, JSON and base64 decoding, authentication, bootstrap, metrics, alerts and logging.
- Trace ids, response statuses of attempts, request method, headers and body in the delivery row: no decision depends on them.
- Bounded batch sizes in the protocol: its maintenance and claim steps take any set of matching rows, which includes every bounded one.
- Waiting in the limiter: the blocking `acquire` loop and its wake-up channel; only `tryAcquire` and `release` are on the delivery path.
- Limiter.DestinationLimiter.StateFor: the rate is a real number and its quotient is exact before it is cut, where the code divides floats; the 64-bit sequence counter does not wrap.
- SHA-256 and UUID generation: collision-freedom on the two streams compared, and unused delivery ids, are hypotheses.
- RequestHash.CanonicalCallerHeaders: trimming and case mapping are the ASCII part of Go's, so names with U+0085, U+00A0 or other Unicode space around them, or with U+0130 or U+212A in them, are rejected here and not there.
- RetryPolicy.RetryAfterRoundTrip: padding with Unicode space beyond ASCII is not trimmed here; http.ParseTime is an input.
- WorkerProcess.DeliveryWorker.Process: the store's answers are inputs and handlers do not interleave inside the method; all interleavings, at the limiter and at store and broker, are in `Capacity` and `Refinement`.
- Capacity.HandlersBounded: one Worker process; another process has its own limiter, and one that dies takes its limiter with it.
- OutboxPublisher.Publisher.RunOnce: nothing else writes to the store during the method; cycles that interleave with everything else are in `OutboxLeases`.
- Guarantees.SendsDisjoint: a send is counted from its claim, which contains the true interval; that 90 seconds of lease cover a 60-second timeout is its hypothesis.
- LossRecovery.RecoversFromLoss: shows a continuation that exists; what every run that misses no pass does is in `Timeliness`.
- Timeliness.SignalInTime: that no pass is missed, none passes the delivery over, and Publishers publish what they take is its hypothesis; batch limits, locks and outages can break it.
