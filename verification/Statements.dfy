/** Each committed SQL statement or transaction of the delivery store as a function from one
    database to the next.  Statements that pick "at most LIMIT unlocked matching rows" take the
    picked rows as an argument.  Readings of `clock_timestamp()` and `statement_timestamp()` are
    arguments too. */
module Statements {
  import opened Model

  // ----- Submit

  datatype SubmitError = IdempotencyConflict | BacklogCapacity

  function FreshRecord(request: Request, acceptedAt: Time, deadline: Time, now: Time): Record {
    Record(
      Delivery(request, Pending, 0, acceptedAt, deadline, acceptedAt, now, None),
      map[0 := Event(acceptedAt, None, None, None)], [], [])
  }

  predicate SameKey(a: Request, b: Request) {
    a.caller == b.caller && a.idempotencyKey == b.idempotencyKey
  }

  function Holders(db: Database, request: Request): set<Id> {
    set id | id in db && SameKey(db[id].row.request, request)
  }

  function ActiveIds(db: Database): set<Id> {
    set id | id in db && Active(db[id].row.status)
  }

  // ----- The Worker's statements

  /** The WHERE clause shared by EligibleDestination, ObserveSignal and ClaimDelivery. */
  predicate Claimable(db: Database, signal: Signal, now: Time) {
    && signal.id in db
    && var row := db[signal.id].row;
       && row.generation == signal.generation
       && row.status == Pending
       && row.nextAttemptAt <= now
       && row.retryDeadline > now
  }

  function Observe(db: Database, signal: Signal, now: Time): Database {
    if Claimable(db, signal, now) && signal.generation in db[signal.id].events then
      var r := db[signal.id];
      var e := r.events[signal.generation];
      db[signal.id := r.(events := r.events[signal.generation := e.(observedAt := Some(now))])]
    else
      db
  }

  function ClaimDelivery(db: Database, signal: Signal, lease: Lease, now: Time): Database {
    if Claimable(db, signal, now) then
      var r := db[signal.id];
      db[signal.id := r.(row := r.row.(status := Delivering, lease := Some(lease), updatedAt := now))]
    else
      db
  }

  datatype AttemptResult = AttemptResult(
    signal: Signal,
    owner: string,
    token: Token,
    category: string,
    startedAt: Time,
    finishedAt: Time)

  datatype Outcome = Success | Retry(nextAttemptAt: Time) | Permanent

  function ClassOf(outcome: Outcome): ResultClass {
    match outcome
    case Success => SucceededAttempt
    case Retry(_) => RetryableFailure
    case Permanent => PermanentFailure
  }

  /** The row is still inside the lease the result names. */
  predicate Fenced(db: Database, result: AttemptResult, now: Time) {
    && result.signal.id in db
    && var row := db[result.signal.id].row;
       && row.generation == result.signal.generation
       && row.status == Delivering
       && row.lease.Some?
       && row.lease.value.owner == result.owner
       && row.lease.value.token == result.token
       && row.lease.value.until > now
  }

  /** The whole WHERE clause of the fenced UPDATE. */
  predicate Completes(db: Database, result: AttemptResult, outcome: Outcome, now: Time) {
    && Fenced(db, result, now)
    && (outcome.Retry? ==> outcome.nextAttemptAt < db[result.signal.id].row.retryDeadline)
  }

  function CompletedRow(row: Delivery, outcome: Outcome, now: Time): Delivery {
    match outcome
    case Success => row.(status := Succeeded, lease := None, updatedAt := now)
    case Permanent => row.(status := FailedPermanent, lease := None, updatedAt := now)
    case Retry(next) =>
      row.(status := Pending, generation := row.generation + 1, nextAttemptAt := next,
           lease := None, updatedAt := now)
  }

  function CompletedRecord(r: Record, result: AttemptResult, outcome: Outcome, now: Time): Record {
    r.(row := CompletedRow(r.row, outcome, now),
       attempts := r.attempts + [Attempt(result.signal.generation, result.token, ClassOf(outcome),
                                         result.category, result.startedAt, result.finishedAt)])
  }

  /** The transaction: fenced UPDATE, then the attempt row, whose CHECK (finished_at >= started_at)
      rolls everything back when it fails. */
  predicate Commits(db: Database, result: AttemptResult, outcome: Outcome, now: Time) {
    Completes(db, result, outcome, now) && result.startedAt <= result.finishedAt
  }

  function Complete(db: Database, result: AttemptResult, outcome: Outcome, now: Time): Database {
    if Commits(db, result, outcome, now) then
      db[result.signal.id := CompletedRecord(db[result.signal.id], result, outcome, now)]
    else
      db
  }

  // ----- ScheduleDueRetries

  predicate Exhausted(r: Record, statement: Time) {
    r.row.status == Pending && r.row.retryDeadline <= statement
  }

  predicate NeedsEvent(r: Record, statement: Time, clock: Time) {
    && r.row.status == Pending
    && r.row.generation > 0
    && r.row.nextAttemptAt <= clock
    && r.row.retryDeadline > statement
    && r.row.generation !in r.events
  }

  function ExhaustRecord(r: Record, statement: Time, clock: Time): Record {
    if Exhausted(r, statement)
    then r.(row := r.row.(status := FailedPermanent, updatedAt := clock))
    else r
  }

  function AddEvent(r: Record, generation: Generation, availableAt: Time): Record {
    if generation in r.events then r   // ON CONFLICT DO NOTHING
    else r.(events := r.events[generation := Event(availableAt, None, None, None)])
  }

  function ScheduleRecord(r: Record, picked: bool, statement: Time, clock: Time): Record {
    if Exhausted(r, statement) then ExhaustRecord(r, statement, clock)
    else if picked then AddEvent(r, r.row.generation, r.row.nextAttemptAt)
    else r
  }

  function NeedsEventIds(db: Database, statement: Time, clock: Time): set<Id> {
    set id | id in db && NeedsEvent(db[id], statement, clock)
  }

  /** Both data-modifying parts of the statement, read from the one snapshot `db`. */
  function Schedule(db: Database, due: set<Id>, statement: Time, clock: Time): Database {
    map id | id in db :: ScheduleRecord(db[id], id in due, statement, clock)
  }

  // ----- RecoverExpiredDeliveries

  predicate LeaseExpired(r: Record, statement: Time) {
    r.row.status == Delivering && r.row.lease.Some? && r.row.lease.value.until <= statement
  }

  function LeaseExpiredIds(db: Database, statement: Time): set<Id> {
    set id | id in db && LeaseExpired(db[id], statement)
  }

  /** `clock` is the reading stored in next_attempt_at, `finished` the later one in updated_at. */
  function RecoverRecord(r: Record, statement: Time, clock: Time, finished: Time): Record
    requires LeaseExpired(r, statement)
  {
    var exhausted := r.row.retryDeadline <= statement;
    var row := r.row.(
      status := if exhausted then FailedPermanent else Pending,
      generation := if exhausted then r.row.generation else r.row.generation + 1,
      nextAttemptAt := clock,
      updatedAt := finished,
      lease := None);
    var attempt := Attempt(
      r.row.generation,
      r.row.lease.value.token,
      if exhausted then PermanentFailure else RetryableFailure,
      if exhausted then "retry_deadline_exhausted" else "lease_expired",
      r.row.updatedAt,
      finished);
    var recovered := r.(row := row, attempts := r.attempts + [attempt]);
    if exhausted then recovered else AddEvent(recovered, row.generation, finished)
  }

  function Recover(db: Database, picked: set<Id>, statement: Time, clock: Time, finished: Time): Database
    requires picked <= LeaseExpiredIds(db, statement)
  {
    map id | id in db ::
      if id in picked then RecoverRecord(db[id], statement, clock, finished) else db[id]
  }

  // ----- ReconcileStalledSignals

  predicate Stalled(r: Record, watchdog: Time, statement: Time, clock: Time) {
    && r.row.status == Pending
    && r.row.nextAttemptAt <= clock
    && r.row.retryDeadline > statement
    && r.row.generation in r.events
    && var e := r.events[r.row.generation];
       && e.publishedAt.Some?
       && e.publishedAt.value <= clock - watchdog
       && (e.observedAt.None? || e.observedAt.value <= clock - watchdog)
       && e.lease.None?
  }

  function StalledIds(db: Database, watchdog: Time, statement: Time, clock: Time): set<Id> {
    set id | id in db && Stalled(db[id], watchdog, statement, clock)
  }

  function ReconcileRecord(r: Record, clock: Time): Record
    requires r.row.generation in r.events
  {
    var e := r.events[r.row.generation];
    r.(events := r.events[r.row.generation := e.(availableAt := clock, publishedAt := None, observedAt := None)])
  }

  function Reconcile(db: Database, picked: set<Id>, watchdog: Time, statement: Time, clock: Time): Database
    requires picked <= StalledIds(db, watchdog, statement, clock)
  {
    map id | id in db :: if id in picked then ReconcileRecord(db[id], clock) else db[id]
  }

  // ----- DeleteExpiredTerminal

  predicate Retired(r: Record, successRetention: Time, failureRetention: Time, now: Time) {
    || (r.row.status == Succeeded && r.row.updatedAt <= now - successRetention)
    || (r.row.status == FailedPermanent && r.row.updatedAt <= now - failureRetention)
  }

  function RetiredIds(db: Database, successRetention: Time, failureRetention: Time, now: Time): set<Id> {
    set id | id in db && Retired(db[id], successRetention, failureRetention, now)
  }

  function Delete(db: Database, picked: set<Id>): Database {
    map id | id in db && id !in picked :: db[id]
  }

  // ----- Replay

  predicate Replayable(db: Database, id: Id) {
    id in db && db[id].row.status == FailedPermanent
  }

  function ReplayRecord(r: Record, operator: string, reason: string, replayedAt: Time): Record {
    var generation := r.row.generation + 1;
    Record(
      r.row.(status := Pending, generation := generation, nextAttemptAt := replayedAt,
             retryDeadline := replayedAt + DAY, lease := None, updatedAt := replayedAt),
      r.events[generation := Event(replayedAt, None, None, None)],
      r.attempts,
      r.audits + [Audit(r.row.generation, generation, operator, reason, replayedAt)])
  }

  // ----- The Publisher's statements

  predicate HasEvent(db: Database, key: Signal) {
    key.id in db && key.generation in db[key.id].events
  }

  function EventOf(db: Database, key: Signal): Event
    requires HasEvent(db, key)
  {
    db[key.id].events[key.generation]
  }

  predicate HasToken(db: Database, key: Signal, token: Token) {
    HasEvent(db, key) && EventOf(db, key).lease.Some? && EventOf(db, key).lease.value.token == token
  }

  function WithEvent(db: Database, key: Signal, e: Event): Database
    requires HasEvent(db, key)
  {
    var r := db[key.id];
    db[key.id := r.(events := r.events[key.generation := e])]
  }

  /** The candidates of ClaimOutbox. */
  predicate Publishable(db: Database, key: Signal, now: Time) {
    && HasEvent(db, key)
    && var e := EventOf(db, key);
       && e.publishedAt.None?
       && e.availableAt <= now
       && (e.lease.None? || e.lease.value.until <= now)
  }

  function LeaseRecord(r: Record, id: Id, keys: set<Signal>, lease: Lease): Record {
    r.(events := map g | g in r.events ::
         if Signal(id, g) in keys then r.events[g].(lease := Some(lease)) else r.events[g])
  }

  function ClaimOutbox(db: Database, keys: set<Signal>, lease: Lease): Database {
    map id | id in db :: LeaseRecord(db[id], id, keys, lease)
  }

  predicate Markable(db: Database, key: Signal, owner: string, token: Token, now: Time) {
    && HasEvent(db, key)
    && var e := EventOf(db, key);
       && e.publishedAt.None?
       && e.lease.Some?
       && e.lease.value.owner == owner
       && e.lease.value.token == token
       && e.lease.value.until > now
  }

  function MarkPublished(db: Database, key: Signal, owner: string, token: Token, now: Time): Database {
    if Markable(db, key, owner, token, now) then
      WithEvent(db, key, EventOf(db, key).(publishedAt := Some(now), observedAt := None, lease := None))
    else
      db
  }

  predicate Releasable(db: Database, key: Signal, owner: string, token: Token) {
    && HasEvent(db, key)
    && var e := EventOf(db, key);
       && e.publishedAt.None?
       && e.lease.Some?
       && e.lease.value.owner == owner
       && e.lease.value.token == token
  }

  function ReleaseOutbox(db: Database, key: Signal, owner: string, token: Token): Database {
    if Releasable(db, key, owner, token)
    then WithEvent(db, key, EventOf(db, key).(lease := None))
    else db
  }
}
