/** The delivery store as the object the service holds: each method is one committed statement or
    transaction, checked against the function of `Statements` that the protocol steps by. */
module Store {
  import opened Model
  import opened Statements
  import opened Protocol
  import opened Admission

  datatype StoreError =
    | InvalidParameters
    | NotClaimable
    | DestinationUnreadable   // reading destination_versions or the stored headers failed
    | WorkerLeaseLost
    | AttemptRefused          // CHECK (finished_at >= started_at)
    | OutboxLeaseLost
    | DeliveryNotFound
    | ReplayRefused
    | AuditViolation          // a constraint of replay_audits
    | KeyViolation            // the UNIQUE key of outbox_events

  /** `picked` is what "LIMIT n FOR UPDATE SKIP LOCKED" may take from `matching`. */
  predicate Picks(picked: set<Id>, matching: set<Id>, locked: set<Id>, limit: int) {
    picked <= matching - locked && |picked| == Min(limit, |matching - locked|)
  }

  /** The events that ClaimOutbox may lease. */
  function Candidates(db: Database, now: Time): set<Signal> {
    set id, g | id in db && g in db[id].events && Publishable(db, Signal(id, g), now) :: Signal(id, g)
  }

  function KeySet(keys: seq<Signal>): set<Signal> {
    set k | k in keys
  }

  /** LIMIT rows out of those that match and are not locked, in any order. */
  method PickRows(matching: set<Id>, locked: set<Id>, limit: int) returns (picked: set<Id>)
    requires limit > 0
    ensures Picks(picked, matching, locked, limit)
  {
    picked := {};
    var rest := matching - locked;
    ghost var free := rest;
    while rest != {} && |picked| < limit
      invariant rest == free - picked && picked <= free && |picked| <= limit
      invariant |free| == |picked| + |rest|
      decreases rest
    {
      var id :| id in rest;
      picked := picked + {id};
      rest := rest - {id};
    }
  }

  /** The constraints of replay_audits: the operator is a known caller, the reason has 1 to 1000
      characters, and the generation was not replayed before. */
  predicate AuditAllowed(r: Record, callers: set<string>, operator: string, reason: string) {
    && operator in callers
    && 1 <= |reason| <= 1000
    && forall a | a in r.audits :: a.toGeneration != r.row.generation + 1
  }

  /** One call of DeleteExpiredTerminal by the retention loop: its clock reading, the rows locked by
      others, how it ends, and whether the caller has cancelled by then. */
  datatype Batch = Batch(now: Time, locked: set<Id>, fate: Fate, cancelled: bool)

  predicate InOrder(batches: seq<Batch>) {
    forall i, j :: 0 <= i < j < |batches| ==> batches[i].now <= batches[j].now
  }

  datatype Retention = Retention(success: Time, failure: Time)

  function RetiredBy(db: Database, keep: Retention, now: Time): set<Id> {
    RetiredIds(db, keep.success, keep.failure, now)
  }

  /** `db'` is `db` without `total` rows, all retired by `now`. */
  predicate Purged(db: Database, db': Database, total: nat, keep: Retention, now: Time) {
    var gone := db.Keys - db'.Keys;
    db' == Delete(db, gone) && total == |gone| && gone <= RetiredBy(db, keep, now)
  }

  lemma CountOne(all: set<Id>, rest: set<Id>, id: Id)
    requires id in rest
    ensures |all - (rest - {id})| == |all - rest| + if id in all then 1 else 0
  {
    if id in all {
      assert all - (rest - {id}) == (all - rest) + {id};
    } else {
      assert all - (rest - {id}) == all - rest;
    }
  }

  lemma SameSize(a: set<Id>, b: set<Id>)
    requires a <= b && |a| == |b|
    ensures a == b
  {
    SubsetCard(b - a, b);
    assert b == a + (b - a);
  }

  lemma ClaimNone(db: Database, lease: Lease)
    ensures Statements.ClaimOutbox(db, {}, lease) == db
  {
    forall id | id in db ensures LeaseRecord(db[id], id, {}, lease) == db[id] {
      assert LeaseRecord(db[id], id, {}, lease).events == db[id].events;
    }
  }

  lemma ClaimOneMore(db: Database, keys: set<Signal>, key: Signal, lease: Lease)
    requires HasEvent(db, key)
    ensures var claimed := Statements.ClaimOutbox(db, keys, lease);
            && HasEvent(claimed, key)
            && WithEvent(claimed, key, EventOf(db, key).(lease := Some(lease)))
               == Statements.ClaimOutbox(db, keys + {key}, lease)
  {
    var claimed := Statements.ClaimOutbox(db, keys, lease);
    var more := Statements.ClaimOutbox(db, keys + {key}, lease);
    var one := WithEvent(claimed, key, EventOf(db, key).(lease := Some(lease)));
    forall id | id in db ensures one[id] == more[id] {
      assert one[id].events == more[id].events;
    }
  }

  lemma ScheduleOneMore(db: Database, due: set<Id>, rest: set<Id>, id: Id, statement: Time, clock: Time)
    requires due <= NeedsEventIds(db, statement, clock) && id in rest && rest <= due
    ensures id in db
    ensures var scheduled := Schedule(db, due - rest, statement, clock);
            scheduled[id := AddEvent(scheduled[id], db[id].row.generation, db[id].row.nextAttemptAt)]
            == Schedule(db, due - (rest - {id}), statement, clock)
  {
  }

  lemma RecoverNone(db: Database, none: set<Id>, statement: Time, clock: Time, finished: Time)
    requires none == {}
    ensures Recover(db, none, statement, clock, finished) == db
  {
  }

  lemma RecoverOneMore(db: Database, picked: set<Id>, rest: set<Id>, id: Id, statement: Time, clock: Time, finished: Time)
    requires picked <= LeaseExpiredIds(db, statement) && id in rest && rest <= picked
    ensures id in db && LeaseExpired(db[id], statement)
    ensures Recover(db, picked - rest, statement, clock, finished)[id := RecoverRecord(db[id], statement, clock, finished)]
            == Recover(db, picked - (rest - {id}), statement, clock, finished)
  {
  }

  lemma ReconcileNone(db: Database, none: set<Id>, watchdog: Time, statement: Time, clock: Time)
    requires none == {}
    ensures Reconcile(db, none, watchdog, statement, clock) == db
  {
  }

  lemma ReconcileOneMore(db: Database, picked: set<Id>, rest: set<Id>, id: Id, watchdog: Time, statement: Time, clock: Time)
    requires picked <= StalledIds(db, watchdog, statement, clock) && id in rest && rest <= picked
    ensures id in db && db[id].row.generation in db[id].events
    ensures Reconcile(db, picked - rest, watchdog, statement, clock)[id := ReconcileRecord(db[id], clock)]
            == Reconcile(db, picked - (rest - {id}), watchdog, statement, clock)
  {
  }

  lemma PurgedNone(db: Database, keep: Retention, now: Time)
    ensures Purged(db, db, 0, keep, now)
  {
    assert db.Keys - db.Keys == {};
  }

  lemma PurgedLater(db: Database, db': Database, total: nat, keep: Retention, now: Time, later: Time)
    requires Purged(db, db', total, keep, now) && now <= later
    ensures Purged(db, db', total, keep, later)
  {
  }

  lemma PurgedBounded(db: Database, db': Database, total: nat, keep: Retention, now: Time)
    requires Purged(db, db', total, keep, now)
    ensures total <= |db|
  {
    SubsetCard(db.Keys - db'.Keys, db.Keys);
  }

  lemma DeletedMore(db: Database, gone: set<Id>, picked: set<Id>)
    ensures Delete(Delete(db, gone), picked) == Delete(db, gone + picked)
    ensures gone <= db.Keys && picked <= Delete(db, gone).Keys ==>
              db.Keys - Delete(db, gone + picked).Keys == gone + picked && |gone + picked| == |gone| + |picked|
  {
  }

  lemma RetiredLeft(db: Database, gone: set<Id>, keep: Retention, now: Time)
    ensures RetiredBy(Delete(db, gone), keep, now) == RetiredBy(db, keep, now) - gone
  {
  }

  lemma PurgedMore(db: Database, db': Database, total: nat, keep: Retention, batch: Batch, picked: set<Id>, batchSize: nat)
    requires Purged(db, db', total, keep, batch.now)
    requires Picks(picked, RetiredBy(db', keep, batch.now), batch.locked, batchSize)
    ensures Purged(db, Delete(db', picked), total + |picked|, keep, batch.now)
    ensures |picked| < batchSize ==> RetiredBy(db, keep, batch.now) - batch.locked <= db.Keys - Delete(db', picked).Keys
  {
    var gone := db.Keys - db'.Keys;
    RetiredLeft(db, gone, keep, batch.now);
    DeletedMore(db, gone, picked);
    if |picked| < batchSize {
      SameSize(picked, RetiredBy(db', keep, batch.now) - batch.locked);
    }
  }

  class DeliveryStore {
    var db: Database
    const backlogLimit: nat
    const callers: set<string>

    constructor (backlogLimit: nat, callers: set<string>)
      ensures db == map[] && this.backlogLimit == backlogLimit && this.callers == callers
    {
      this.db := map[];
      this.backlogLimit := backlogLimit;
      this.callers := callers;
    }

    // ----- Submission and replay

    method FindByKey(request: Request) returns (found: Option<Id>)
      requires UniqueKeys(db)
      ensures found == (match Filed(db, request) case None => None case Some((id, _)) => Some(id))
      ensures found.Some? ==> found.value in db
    {
      var rest := db.Keys;
      while rest != {}
        invariant rest <= db.Keys
        invariant Holders(db, request) <= rest
        decreases rest
      {
        var id :| id in rest;
        if SameKey(db[id].row.request, request) {
          FiledUnique(db, request);
          assert id in Holders(db, request);
          return Some(id);
        }
        rest := rest - {id};
      }
      return None;
    }

    method CountActive() returns (active: nat)
      ensures active == |ActiveIds(db)|
    {
      active := 0;
      var rest := db.Keys;
      ghost var all := ActiveIds(db);
      while rest != {}
        invariant rest <= db.Keys
        invariant active == |all - rest|
        decreases rest
      {
        var id :| id in rest;
        CountOne(all, rest, id);
        if Active(db[id].row.status) {
          active := active + 1;
        }
        rest := rest - {id};
      }
      assert all - rest == all;
    }

    /** Looks the key up before it looks at capacity, and inserts the delivery with its first event. */
    method Submit(id: Id, request: Request, acceptedAt: Time, deadline: Time, now: Time)
      returns (answer: Result<Id, SubmitError>)
      requires UniqueKeys(db) && id !in db
      modifies this
      ensures UniqueKeys(db)
      ensures answer == SubmitAnswer(old(db), backlogLimit, id, request)
      ensures db == if Holders(old(db), request) == {} && |ActiveIds(old(db))| < backlogLimit
                    then old(db)[id := FreshRecord(request, acceptedAt, deadline, now)]
                    else old(db)
    {
      var existing := FindByKey(request);
      if existing.Some? {
        if db[existing.value].row.request.hash != request.hash {
          return Err(IdempotencyConflict);
        }
        return Ok(existing.value);
      }
      var active := CountActive();
      if active >= backlogLimit {
        return Err(BacklogCapacity);
      }
      InsertKeepsUnique(db, id, FreshRecord(request, acceptedAt, deadline, now), request);
      db := db[id := FreshRecord(request, acceptedAt, deadline, now)];
      return Ok(id);
    }

    /** The update, the audit row and the event, or nothing. */
    method Replay(id: Id, operator: string, reason: string, replayedAt: Time) returns (answer: Result<Delivery, StoreError>)
      modifies this
      ensures answer.Ok? <==>
                && Replayable(old(db), id)
                && AuditAllowed(old(db)[id], callers, operator, reason)
                && old(db)[id].row.generation + 1 !in old(db)[id].events
      ensures answer.Ok? ==>
                && db == old(db)[id := ReplayRecord(old(db)[id], operator, reason, replayedAt)]
                && answer.value == db[id].row
      ensures answer.Err? ==> db == old(db)
      ensures answer == Err(DeliveryNotFound) <==> id !in old(db)
      ensures answer == Err(ReplayRefused) <==> id in old(db) && old(db)[id].row.status != FailedPermanent
    {
      if id !in db {
        return Err(DeliveryNotFound);
      }
      var r := db[id];
      if r.row.status != FailedPermanent {
        return Err(ReplayRefused);
      }
      if !AuditAllowed(r, callers, operator, reason) {
        return Err(AuditViolation);
      }
      if r.row.generation + 1 in r.events {
        return Err(KeyViolation);
      }
      db := db[id := ReplayRecord(r, operator, reason, replayedAt)];
      return Ok(db[id].row);
    }

    // ----- The Worker's calls

    /** `loads` says whether the destination version can be read afterwards. */
    method EligibleDestination(signal: Signal, loads: bool, now: Time) returns (answer: Result<(string, int), StoreError>)
      ensures answer.Ok? <==> Claimable(db, signal, now) && loads
      ensures answer.Ok? ==> answer.value == (db[signal.id].row.request.destination, db[signal.id].row.request.version)
      ensures answer == Err(NotClaimable) <==> !Claimable(db, signal, now)
    {
      if !Claimable(db, signal, now) {
        return Err(NotClaimable);
      }
      if !loads {
        return Err(DestinationUnreadable);
      }
      return Ok((db[signal.id].row.request.destination, db[signal.id].row.request.version));
    }

    method ObserveSignal(signal: Signal, now: Time)
      modifies this
      ensures db == Observe(old(db), signal, now)
    {
      if Claimable(db, signal, now) && HasEvent(db, signal) {
        db := WithEvent(db, signal, EventOf(db, signal).(observedAt := Some(now)));
      }
    }

    /** The update, then the read of the destination version, whose failure takes the update back. */
    method ClaimDelivery(signal: Signal, owner: string, token: Token, duration: Time, loads: bool, now: Time)
      returns (answer: Result<Delivery, StoreError>)
      modifies this
      ensures owner == "" || duration <= 0 ==> answer == Err(InvalidParameters)
      ensures owner != "" && duration > 0 ==>
                && (answer.Ok? <==> Claimable(old(db), signal, now) && loads)
                && (answer == Err(NotClaimable) <==> !Claimable(old(db), signal, now))
      ensures answer.Err? ==> db == old(db)
      ensures answer.Ok? ==>
                && db == Statements.ClaimDelivery(old(db), signal, Lease(owner, token, now + duration), now)
                && answer.value == db[signal.id].row
                && answer.value.lease == Some(Lease(owner, token, now + duration))
    {
      if owner == "" || duration <= 0 {
        return Err(InvalidParameters);
      }
      if !Claimable(db, signal, now) {
        return Err(NotClaimable);
      }
      var before := db;
      var row := db[signal.id].row;
      row := row.(status := Delivering, lease := Some(Lease(owner, token, now + duration)), updatedAt := now);
      db := db[signal.id := db[signal.id].(row := row)];
      if !loads {
        db := before;
        return Err(DestinationUnreadable);
      }
      return Ok(row);
    }

    /** CompleteSuccess, CompleteRetry and CompletePermanent: the fenced update, then the attempt row;
        a failure of either leaves nothing behind. */
    method CompleteResult(result: AttemptResult, outcome: Outcome, now: Time) returns (answer: Result<(), StoreError>)
      modifies this
      ensures db == Complete(old(db), result, outcome, now)
      ensures answer.Ok? <==> Commits(old(db), result, outcome, now)
      ensures answer == Err(WorkerLeaseLost) <==> !Completes(old(db), result, outcome, now)
      ensures answer == Err(AttemptRefused) <==>
                Completes(old(db), result, outcome, now) && result.finishedAt < result.startedAt
    {
      var before := db;
      if !Completes(db, result, outcome, now) {
        return Err(WorkerLeaseLost);
      }
      var id := result.signal.id;
      db := db[id := db[id].(row := CompletedRow(db[id].row, outcome, now))];
      if result.finishedAt < result.startedAt {
        db := before;
        return Err(AttemptRefused);
      }
      var attempt := Attempt(result.signal.generation, result.token, ClassOf(outcome), result.category,
                             result.startedAt, result.finishedAt);
      db := db[id := db[id].(attempts := db[id].attempts + [attempt])];
      assert db == Complete(before, result, outcome, now);
      return Ok(());
    }

    // ----- Maintenance passes

    method ScheduleDueRetries(limit: int, locked: set<Id>, statement: Time, clock: Time)
      returns (answer: Result<nat, StoreError>, due: set<Id>)
      modifies this
      ensures limit <= 0 ==> answer == Err(InvalidParameters) && db == old(db)
      ensures limit > 0 ==>
                && Picks(due, NeedsEventIds(old(db), statement, clock), locked, limit)
                && db == Schedule(old(db), due, statement, clock)
                && answer == Ok(|due|)
    {
      if limit <= 0 {
        return Err(InvalidParameters), {};
      }
      var snapshot := db;
      due := PickRows(NeedsEventIds(snapshot, statement, clock), locked, limit);
      db := map id | id in snapshot :: ExhaustRecord(snapshot[id], statement, clock);
      var rest := due;
      assert db == Schedule(snapshot, due - rest, statement, clock);
      while rest != {}
        invariant rest <= due
        invariant db == Schedule(snapshot, due - rest, statement, clock)
        decreases rest
      {
        var id :| id in rest;
        ScheduleOneMore(snapshot, due, rest, id, statement, clock);
        db := db[id := AddEvent(db[id], snapshot[id].row.generation, snapshot[id].row.nextAttemptAt)];
        rest := rest - {id};
      }
      assert due - rest == due;
      return Ok(|due|), due;
    }

    /** Returns the number of rows it put back, counted one by one. */
    method RecoverExpiredDeliveries(limit: int, locked: set<Id>, statement: Time, clock: Time, finished: Time)
      returns (answer: Result<nat, StoreError>, picked: set<Id>)
      modifies this
      ensures limit <= 0 ==> answer == Err(InvalidParameters) && db == old(db)
      ensures limit > 0 ==>
                && Picks(picked, LeaseExpiredIds(old(db), statement), locked, limit)
                && db == Recover(old(db), picked, statement, clock, finished)
                && answer == Ok(|picked|)
    {
      if limit <= 0 {
        return Err(InvalidParameters), {};
      }
      var snapshot := db;
      picked := PickRows(LeaseExpiredIds(snapshot, statement), locked, limit);
      var rest := picked;
      RecoverNone(snapshot, picked - rest, statement, clock, finished);
      var recovered := 0;
      while rest != {}
        invariant rest <= picked && recovered == |picked| - |rest|
        invariant db == Recover(snapshot, picked - rest, statement, clock, finished)
        decreases rest
      {
        var id :| id in rest;
        RecoverOneMore(snapshot, picked, rest, id, statement, clock, finished);
        db := db[id := RecoverRecord(snapshot[id], statement, clock, finished)];
        rest := rest - {id};
        recovered := recovered + 1;
      }
      assert picked - rest == picked;
      return Ok(recovered), picked;
    }

    method ReconcileStalledSignals(watchdog: Time, limit: int, locked: set<Id>, statement: Time, clock: Time)
      returns (answer: Result<nat, StoreError>, picked: set<Id>)
      modifies this
      ensures limit <= 0 || watchdog <= 0 ==> answer == Err(InvalidParameters) && db == old(db)
      ensures limit > 0 && watchdog > 0 ==>
                && Picks(picked, StalledIds(old(db), watchdog, statement, clock), locked, limit)
                && db == Reconcile(old(db), picked, watchdog, statement, clock)
                && answer == Ok(|picked|)
    {
      if limit <= 0 || watchdog <= 0 {
        return Err(InvalidParameters), {};
      }
      var snapshot := db;
      picked := PickRows(StalledIds(snapshot, watchdog, statement, clock), locked, limit);
      var rest := picked;
      ReconcileNone(snapshot, picked - rest, watchdog, statement, clock);
      while rest != {}
        invariant rest <= picked
        invariant db == Reconcile(snapshot, picked - rest, watchdog, statement, clock)
        decreases rest
      {
        var id :| id in rest;
        ReconcileOneMore(snapshot, picked, rest, id, watchdog, statement, clock);
        db := db[id := ReconcileRecord(snapshot[id], clock)];
        rest := rest - {id};
      }
      assert picked - rest == picked;
      return Ok(|picked|), picked;
    }

    method DeleteExpiredTerminal(successRetention: Time, failureRetention: Time, limit: int, locked: set<Id>, now: Time)
      returns (answer: Result<nat, StoreError>, picked: set<Id>)
      modifies this
      ensures limit <= 0 || successRetention <= 0 || failureRetention <= 0 ==>
                answer == Err(InvalidParameters) && db == old(db)
      ensures limit > 0 && successRetention > 0 && failureRetention > 0 ==>
                && Picks(picked, RetiredIds(old(db), successRetention, failureRetention, now), locked, limit)
                && db == Delete(old(db), picked)
                && answer == Ok(|picked|)
    {
      if limit <= 0 || successRetention <= 0 || failureRetention <= 0 {
        return Err(InvalidParameters), {};
      }
      picked := PickRows(RetiredIds(db, successRetention, failureRetention, now), locked, limit);
      db := db - picked;
      assert db == Delete(old(db), picked);
      return Ok(|picked|), picked;
    }

    /** One batch of the retention loop, after others have taken `total` rows from `start`. */
    method DeleteBatch(keep: Retention, batchSize: nat, batch: Batch, ghost start: Database, ghost total: nat)
      returns (deleted: nat)
      requires batchSize > 0 && keep.success > 0 && keep.failure > 0
      requires Purged(start, db, total, keep, batch.now)
      modifies this
      ensures deleted <= batchSize && Purged(start, db, total + deleted, keep, batch.now)
      ensures deleted < batchSize ==> RetiredBy(start, keep, batch.now) - batch.locked <= start.Keys - db.Keys
    {
      ghost var before := db;
      var answer, picked := DeleteExpiredTerminal(keep.success, keep.failure, batchSize, batch.locked, batch.now);
      PurgedMore(start, before, total, keep, batch, picked, batchSize);
      return answer.value;
    }

    /** drainRetention: batches until one is not full, one fails or the caller cancels; `last` is the
        index of the last one.  Only rows that are retired by then go, each counted once, except that a
        batch that fails although it committed leaves its rows uncounted; after a regular end all
        retired rows have gone, but for those that were locked when the last batch ran. */
    method DrainRetention(keep: Retention, batchSize: nat, batches: seq<Batch>)
      returns (total: nat, last: nat, regular: bool, ghost uncounted: nat)
      requires batchSize > 0 && keep.success > 0 && keep.failure > 0
      requires |db| < |batches| && InOrder(batches)
      modifies this
      ensures last < |batches|
      ensures !regular ==> !batches[last].fate.Returns? || batches[last].cancelled
      ensures uncounted > 0 ==> batches[last].fate.FailsAfter? && uncounted <= batchSize
      ensures Purged(old(db), db, total + uncounted, keep, batches[last].now)
      ensures regular ==> RetiredBy(old(db), keep, batches[last].now) - batches[last].locked <= old(db).Keys - db.Keys
    {
      ghost var start := db;
      total, last, uncounted := 0, 0, 0;
      PurgedNone(db, keep, batches[0].now);
      while true
        invariant last <= total && last < |batches|
        invariant Purged(start, db, total, keep, batches[last].now)
        decreases |batches| - last
      {
        if batches[last].fate.FailsBefore? {
          return total, last, false, 0;
        }
        var deleted := DeleteBatch(keep, batchSize, batches[last], start, total);
        if batches[last].fate.FailsAfter? {
          return total, last, false, deleted;
        }
        total := total + deleted;
        if deleted < batchSize {
          return total, last, true, 0;
        }
        if batches[last].cancelled {
          return total, last, false, 0;
        }
        PurgedBounded(start, db, total, keep, batches[last].now);
        PurgedLater(start, db, total, keep, batches[last].now, batches[last + 1].now);
        last := last + 1;
      }
    }

    // ----- The Publisher's calls

    /** Leases up to `limit` available events and returns them one by one. */
    method ClaimOutbox(owner: string, token: Token, duration: Time, limit: int, locked: set<Signal>, now: Time)
      returns (answer: Result<seq<Signal>, StoreError>)
      modifies this
      ensures owner == "" || duration <= 0 || limit <= 0 ==> answer == Err(InvalidParameters) && db == old(db)
      ensures owner != "" && duration > 0 && limit > 0 ==>
                && answer.Ok?
                && |answer.value| <= limit
                && Distinct(answer.value)
                && KeySet(answer.value) <= Candidates(old(db), now) - locked
                && (|answer.value| < limit ==> KeySet(answer.value) == Candidates(old(db), now) - locked)
                && db == Statements.ClaimOutbox(old(db), KeySet(answer.value), Lease(owner, token, now + duration))
    {
      if owner == "" || duration <= 0 || limit <= 0 {
        return Err(InvalidParameters);
      }
      var snapshot := db;
      var lease := Lease(owner, token, now + duration);
      var rest := Candidates(snapshot, now) - locked;
      ghost var matching := rest;
      var events: seq<Signal> := [];
      ghost var taken: set<Signal> := {};
      ClaimNone(snapshot, lease);
      while rest != {} && |events| < limit
        invariant |events| <= limit
        invariant rest == matching - taken && taken <= matching
        invariant forall k :: k in events <==> k in taken
        invariant Distinct(events)
        invariant db == Statements.ClaimOutbox(snapshot, taken, lease)
        decreases rest
      {
        var key :| key in rest;
        assert key in Candidates(snapshot, now);
        ClaimOneMore(snapshot, taken, key, lease);
        db := WithEvent(db, key, EventOf(snapshot, key).(lease := Some(lease)));
        events := events + [key];
        taken := taken + {key};
        rest := rest - {key};
      }
      assert taken == KeySet(events);
      return Ok(events);
    }

    method MarkOutboxPublished(key: Signal, owner: string, token: Token, now: Time) returns (answer: Result<(), StoreError>)
      modifies this
      ensures db == MarkPublished(old(db), key, owner, token, now)
      ensures answer == (if Markable(old(db), key, owner, token, now) then Ok(()) else Err(OutboxLeaseLost))
    {
      if !Markable(db, key, owner, token, now) {
        return Err(OutboxLeaseLost);
      }
      db := WithEvent(db, key, EventOf(db, key).(publishedAt := Some(now), observedAt := None, lease := None));
      return Ok(());
    }

    /** A release that finds the event already published counts as done. */
    method ReleaseOutbox(key: Signal, owner: string, token: Token) returns (answer: Result<(), StoreError>)
      modifies this
      ensures db == Statements.ReleaseOutbox(old(db), key, owner, token)
      ensures answer.Ok? <==>
                HasEvent(old(db), key) && (EventOf(old(db), key).publishedAt.Some? || Releasable(old(db), key, owner, token))
    {
      if Releasable(db, key, owner, token) {
        db := WithEvent(db, key, EventOf(db, key).(lease := None));
        return Ok(());
      }
      if !HasEvent(db, key) {
        return Err(OutboxLeaseLost);
      }
      if EventOf(db, key).publishedAt.None? {
        return Err(OutboxLeaseLost);
      }
      return Ok(());
    }
  }
}
