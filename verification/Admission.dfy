/** Submission as a map from (caller, idempotency key) to one delivery, and the admission bound on
    active deliveries. */
module Admission {
  import opened Model
  import opened Statements
  import opened Protocol
  import opened Invariant
  import opened Preservation

  // ----- The abstract map

  /** The delivery and content hash filed under the key of `request`. */
  ghost function Filed(db: Database, request: Request): Option<(Id, seq<int>)> {
    if Holders(db, request) == {} then None
    else
      var id :| id in Holders(db, request);
      Some((id, db[id].row.request.hash))
  }

  /** Submission against an ordinary map entry: look up first, then capacity, then insert. */
  function FileUnder(entry: Option<(Id, seq<int>)>, full: bool, id: Id, hash: seq<int>)
    : (Option<(Id, seq<int>)>, Result<Id, SubmitError>)
  {
    match entry
    case Some((filed, hash')) => (entry, if hash' == hash then Ok(filed) else Err(IdempotencyConflict))
    case None => if full then (entry, Err(BacklogCapacity)) else (Some((id, hash)), Ok(id))
  }

  /** What `Submit` answers. */
  ghost function SubmitAnswer(db: Database, limit: nat, id: Id, request: Request): Result<Id, SubmitError> {
    FileUnder(Filed(db, request), |ActiveIds(db)| >= limit, id, request.hash).1
  }

  // ----- Invariants of admission

  predicate KeyAt(db: Database, a: Id, b: Id) {
    a in db && b in db && SameKey(db[a].row.request, db[b].row.request) ==> a == b
  }

  /** The schema's UNIQUE (caller_id, idempotency_key). */
  ghost predicate UniqueKeys(db: Database) {
    forall a, b {:trigger KeyAt(db, a, b)} :: KeyAt(db, a, b)
  }

  ghost predicate Admitted(s: System) {
    && UniqueKeys(s.db)
    && |ActiveIds(s.db)| <= s.cfg.backlogLimit + s.replays
  }

  /** The row was there before, holds the same request, and is active only if it was. */
  predicate Calm(db: Database, db': Database, id: Id) {
    id in db' ==>
      && id in db
      && db'[id].row.request == db[id].row.request
      && (Active(db'[id].row.status) ==> Active(db[id].row.status))
  }

  lemma SubsetCard(a: set<Id>, b: set<Id>)
    requires a <= b
    ensures |a| <= |b|
  {
    assert b == a + (b - a);
  }

  lemma CalmAdmits(s: System, s': System)
    requires Admitted(s) && s'.cfg == s.cfg && s'.replays == s.replays
    requires forall id {:trigger Calm(s.db, s'.db, id)} :: Calm(s.db, s'.db, id)
    ensures Admitted(s')
  {
    forall id | id in ActiveIds(s'.db) ensures id in ActiveIds(s.db) {
      assert Calm(s.db, s'.db, id);
    }
    SubsetCard(ActiveIds(s'.db), ActiveIds(s.db));
    forall a, b ensures KeyAt(s'.db, a, b) {
      assert KeyAt(s.db, a, b) && Calm(s.db, s'.db, a) && Calm(s.db, s'.db, b);
    }
  }

  lemma OneMoreActive(db: Database, db': Database, id: Id)
    requires forall x {:trigger x in ActiveIds(db')} :: x in ActiveIds(db') ==> x in ActiveIds(db) || x == id
    ensures |ActiveIds(db')| <= |ActiveIds(db)| + 1
  {
    SubsetCard(ActiveIds(db'), ActiveIds(db) + {id});
  }

  lemma InsertKeepsUnique(db: Database, id: Id, r: Record, request: Request)
    requires UniqueKeys(db) && id !in db && Holders(db, request) == {} && r.row.request == request
    ensures UniqueKeys(db[id := r])
  {
    var db' := db[id := r];
    forall a, b ensures KeyAt(db', a, b) {
      assert KeyAt(db, a, b);
      assert a in db ==> a !in Holders(db, request);
      assert b in db ==> b !in Holders(db, request);
    }
  }

  lemma SubmitAdmits(s: System, id: Id, request: Request, acceptedAt: Time, at: Time)
    requires Admitted(s) && Inv(s) && id !in s.logs
    ensures Admitted(ApiNext(s, Submit(id, request, acceptedAt, at)))
  {
    var s' := ApiNext(s, Submit(id, request, acceptedAt, at));
    if Admits(s, request) {
      OneMoreActive(s.db, s'.db, id);
      assert RowAt(s, id);
      InsertKeepsUnique(s.db, id, FreshRecord(request, acceptedAt, acceptedAt + DAY, at), request);
    }
  }

  lemma ReplayAdmits(s: System, id: Id, operator: string, reason: string, replayedAt: Time, at: Time)
    requires Admitted(s)
    ensures Admitted(ApiNext(s, Replay(id, operator, reason, replayedAt, at)))
  {
    var s' := ApiNext(s, Replay(id, operator, reason, replayedAt, at));
    if Replayable(s.db, id) {
      OneMoreActive(s.db, s'.db, id);
      forall a, b ensures KeyAt(s'.db, a, b) {
        assert KeyAt(s.db, a, b);
      }
    }
  }

  lemma CalmPublisher(s: System, c: nat, step: PublisherStep, id: Id)
    requires PublisherEnabled(s, c, step)
    ensures Calm(s.db, PublisherNext(s, c, step).db, id)
  {
  }

  lemma CalmWorker(s: System, t: nat, step: WorkerStep, id: Id)
    requires WorkerEnabled(s, t, step)
    ensures Calm(s.db, WorkerNext(s, t, step).db, id)
  {
  }

  lemma CalmMaintenance(s: System, step: MaintenanceStep, id: Id)
    requires MaintenanceEnabled(s, step)
    ensures Calm(s.db, MaintenanceNext(s, step).db, id)
  {
  }

  lemma PublisherAdmits(s: System, c: nat, step: PublisherStep)
    requires Admitted(s) && PublisherEnabled(s, c, step)
    ensures Admitted(PublisherNext(s, c, step))
  {
    forall id ensures Calm(s.db, PublisherNext(s, c, step).db, id) {
      CalmPublisher(s, c, step, id);
    }
    CalmAdmits(s, PublisherNext(s, c, step));
  }

  lemma WorkerAdmits(s: System, t: nat, step: WorkerStep)
    requires Admitted(s) && WorkerEnabled(s, t, step)
    ensures Admitted(WorkerNext(s, t, step))
  {
    forall id ensures Calm(s.db, WorkerNext(s, t, step).db, id) {
      CalmWorker(s, t, step, id);
    }
    CalmAdmits(s, WorkerNext(s, t, step));
  }

  lemma MaintenanceAdmits(s: System, step: MaintenanceStep)
    requires Admitted(s) && MaintenanceEnabled(s, step)
    ensures Admitted(MaintenanceNext(s, step))
  {
    forall id ensures Calm(s.db, MaintenanceNext(s, step).db, id) {
      CalmMaintenance(s, step, id);
    }
    CalmAdmits(s, MaintenanceNext(s, step));
  }

  lemma BrokerAdmits(s: System, step: BrokerStep)
    requires Admitted(s) && BrokerEnabled(s, step)
    ensures Admitted(BrokerNext(s, step))
  {
  }

  lemma StepAdmits(s: System, step: Step)
    requires Admitted(s) && Inv(s) && Enabled(s, step)
    ensures Admitted(Next(s, step))
  {
    match step
    case Api(Submit(id, request, acceptedAt, at)) => SubmitAdmits(s, id, request, acceptedAt, at);
    case Api(Replay(id, operator, reason, replayedAt, at)) =>
      ReplayAdmits(s, id, operator, reason, replayedAt, at);
    case Publisher(c, publisher) => PublisherAdmits(s, c, publisher);
    case Worker(t, worker) => WorkerAdmits(s, t, worker);
    case Broker(broker) => BrokerAdmits(s, broker);
    case Maintenance(maintenance) => MaintenanceAdmits(s, maintenance);
  }

  lemma {:induction false} RunAdmits(s: System, steps: seq<Step>)
    requires Inv(s) && Admitted(s) && ValidRun(s, steps)
    ensures Admitted(Run(s, steps))
    decreases |steps|
  {
    if steps == [] {
    } else {
      StepKeeps(s, steps[0]);
      StepAdmits(s, steps[0]);
      RunAdmits(Next(s, steps[0]), steps[1..]);
    }
  }

  lemma ReachableAdmitted(s: System)
    requires Reachable(s)
    ensures Admitted(s)
  {
    var cfg, start, steps: seq<Step> :|
      && ValidConfig(cfg)
      && ValidRun(Init(cfg, start), steps)
      && s == Run(Init(cfg, start), steps);
    RunAdmits(Init(cfg, start), steps);
  }

  // ----- The promises

  /** Active deliveries never exceed the limit by more than the replays, which bypass admission. */
  lemma BacklogBounded(s: System)
    requires Reachable(s)
    ensures |ActiveIds(s.db)| <= s.cfg.backlogLimit + s.replays
  {
    ReachableAdmitted(s);
  }

  lemma FiledUnique(db: Database, request: Request)
    requires UniqueKeys(db)
    ensures forall a, b | a in Holders(db, request) && b in Holders(db, request) :: a == b
  {
    forall a, b | a in Holders(db, request) && b in Holders(db, request) ensures a == b {
      assert KeyAt(db, a, b);
    }
  }

  lemma FiledAfterInsert(db: Database, id: Id, r: Record, request: Request)
    requires Holders(db, request) == {} && r.row.request == request
    ensures Filed(db[id := r], request) == Some((id, request.hash))
  {
    assert Holders(db[id := r], request) <= Holders(db, request) + {id};
    assert id in Holders(db[id := r], request);
  }

  /** `Submit` acts on its own entry as submission acts on a map. */
  lemma SubmitRefinesMap(s: System, id: Id, request: Request, acceptedAt: Time, at: Time)
    ensures var db' := ApiNext(s, Submit(id, request, acceptedAt, at)).db;
            var full := |ActiveIds(s.db)| >= s.cfg.backlogLimit;
            && Filed(db', request) == FileUnder(Filed(s.db, request), full, id, request.hash).0
            && (SubmitAnswer(s.db, s.cfg.backlogLimit, id, request).Err? ==> db' == s.db)
  {
    if Admits(s, request) {
      FiledAfterInsert(s.db, id, FreshRecord(request, acceptedAt, acceptedAt + DAY, at), request);
    }
  }

  /** And it leaves every other entry alone. */
  lemma SubmitKeepsOtherEntries(s: System, id: Id, request: Request, acceptedAt: Time, at: Time, other: Request)
    requires Reachable(s) && id !in s.logs && !SameKey(request, other)
    ensures Filed(ApiNext(s, Submit(id, request, acceptedAt, at)).db, other) == Filed(s.db, other)
  {
    ReachableInv(s);
    ReachableAdmitted(s);
    assert RowAt(s, id);
    var s' := ApiNext(s, Submit(id, request, acceptedAt, at));
    FiledUnique(s.db, other);
    assert Holders(s'.db, other) == Holders(s.db, other);
  }

  lemma {:induction false} RequestForever(s: System, steps: seq<Step>, id: Id)
    requires Inv(s) && ValidRun(s, steps) && id in s.logs && id in Run(s, steps).db
    ensures id in s.db && Run(s, steps).db[id].row.request == s.db[id].row.request
    ensures Run(s, steps).db[id].row.acceptedAt == s.db[id].row.acceptedAt
    decreases |steps|
  {
    if steps == [] {
    } else {
      StepKeeps(s, steps[0]);
      assert IdAdvances(s, Next(s, steps[0]), id);
      RequestForever(Next(s, steps[0]), steps[1..], id);
    }
  }

  /** While a row lives, every later submission under its key answers with its id or with a
      conflict, even at capacity, and changes nothing. */
  lemma SameDeliveryWhileItLives(s: System, id: Id, steps: seq<Step>, unused: Id, request: Request, at: Time)
    requires Reachable(s) && id in s.db && ValidRun(s, steps)
    requires id in Run(s, steps).db && unused !in Run(s, steps).logs
    requires SameKey(request, s.db[id].row.request)
    ensures var s' := Run(s, steps);
            && SubmitAnswer(s'.db, s'.cfg.backlogLimit, unused, request) ==
                 (if request.hash == s.db[id].row.request.hash then Ok(id) else Err(IdempotencyConflict))
            && ApiNext(s', Submit(unused, request, at, s'.now)).db == s'.db
  {
    ReachableInv(s);
    assert RowAt(s, id);
    RequestForever(s, steps, id);
    ReachableAdmitted(s);
    RunAdmits(s, steps);
    FiledUnique(Run(s, steps).db, request);
    assert id in Holders(Run(s, steps).db, request);
  }
}
