/** The rows of the four delivery tables and the identifiers that travel with them.

    `outbox_events`, `delivery_attempts` and `replay_audits` all reference `deliveries(id)` with
    ON DELETE CASCADE, so every child row belongs to exactly one live delivery and goes away with
    it.  The child rows are therefore kept beside the delivery they reference, in a `Record`; the
    unique key (delivery_id, generation) of the Outbox is the key of the map `events`. */
module Model {

  datatype Option<+T> = None | Some(value: T)

  datatype Result<+T, +E> = Ok(value: T) | Err(error: E)

  type Id = nat

  type Generation = nat

  /** Instants and durations are whole microseconds. */
  type Time = int

  type Token = nat

  const DAY: Time := 86_400_000_000

  function Min(a: int, b: int): int {
    if a < b then a else b
  }

  function Max(a: int, b: int): int {
    if a < b then b else a
  }

  datatype Status = Pending | Delivering | Succeeded | FailedPermanent

  predicate Terminal(status: Status) {
    status == Succeeded || status == FailedPermanent
  }

  predicate Active(status: Status) {
    status == Pending || status == Delivering
  }

  /** lease_owner, lease_token and lease_until, which are NULL together or set together. */
  datatype Lease = Lease(owner: string, token: Token, until: Time)

  /** What a caller submitted; no statement rewrites it. */
  datatype Request = Request(
    caller: string,
    idempotencyKey: string,
    hash: seq<int>,
    destination: string,
    version: int)

  datatype Delivery = Delivery(
    request: Request,
    status: Status,
    generation: Generation,
    acceptedAt: Time,
    retryDeadline: Time,
    nextAttemptAt: Time,
    updatedAt: Time,
    lease: Option<Lease>)

  datatype Event = Event(
    availableAt: Time,
    publishedAt: Option<Time>,
    observedAt: Option<Time>,
    lease: Option<Lease>)

  datatype ResultClass = SucceededAttempt | RetryableFailure | PermanentFailure

  datatype Attempt = Attempt(
    generation: Generation,
    token: Token,
    class_: ResultClass,
    category: string,
    startedAt: Time,
    finishedAt: Time)

  datatype Audit = Audit(
    fromGeneration: Generation,
    toGeneration: Generation,
    operator: string,
    reason: string,
    replayedAt: Time)

  datatype Record = Record(
    row: Delivery,
    events: map<Generation, Event>,
    attempts: seq<Attempt>,
    audits: seq<Audit>)

  type Database = map<Id, Record>

  /** The identifier-only broker message; it also names the Outbox event it was made from. */
  datatype Signal = Signal(id: Id, generation: Generation)
}
