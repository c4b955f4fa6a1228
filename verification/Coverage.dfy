/** As long as the broker loses nothing, every delivery whose current event is marked published is
    still covered by a message, so the watchdog has nothing to repair. */
module Coverage {
  import opened Model
  import opened Statements
  import opened Protocol
  import opened Invariant
  import opened Preservation

  /** Handler `t` holds an unacknowledged copy that it has not replaced. */
  predicate Holds(s: System, t: nat, signal: Signal) {
    t in s.tasks && s.tasks[t].signal == signal && !s.tasks[t].phase.Replaced?
  }

  ghost predicate Live(s: System, signal: Signal) {
    signal in s.ready || signal in s.deferred || exists t :: Holds(s, t, signal)
  }

  ghost predicate Covered(s: System, signal: Signal) {
    Dead(s, signal) || Live(s, signal)
  }

  predicate CurrentPublished(r: Record) {
    r.row.generation in r.events && r.events[r.row.generation].publishedAt.Some?
  }

  ghost predicate RowCovered(s: System, id: Id) {
    id in s.db && CurrentPublished(s.db[id]) ==> Covered(s, Signal(id, s.db[id].row.generation))
  }

  ghost predicate TaskCovered(s: System, t: nat) {
    t in s.tasks && s.tasks[t].phase.Replaced? ==> Covered(s, s.tasks[t].signal)
  }

  /** A confirmed publication that is not marked yet. */
  predicate Confirmed(s: System, c: nat) {
    c in s.cycles && s.cycles[c].stage == Marking && s.cycles[c].next < |s.cycles[c].keys|
  }

  ghost predicate CycleCovered(s: System, c: nat) {
    Confirmed(s, c) ==> Covered(s, s.cycles[c].keys[s.cycles[c].next])
  }

  ghost predicate Coverage(s: System) {
    !s.lost ==>
      && (forall id {:trigger RowCovered(s, id)} :: RowCovered(s, id))
      && (forall t {:trigger TaskCovered(s, t)} :: TaskCovered(s, t))
      && (forall c {:trigger CycleCovered(s, c)} :: CycleCovered(s, c))
  }

  /** What is covered stays covered. */
  ghost predicate Keeps(s: System, s': System, signal: Signal) {
    Covered(s, signal) ==> Covered(s', signal)
  }

  /** The current event is published after the step only if it was before. */
  predicate PublishesNothing(db: Database, db': Database, id: Id) {
    id in db' && CurrentPublished(db'[id]) ==>
      && id in db
      && CurrentPublished(db[id])
      && db[id].row.generation == db'[id].row.generation
  }

  ghost predicate NoNewPublication(s: System, s': System, id: Id) {
    || PublishesNothing(s.db, s'.db, id)
    || (id in s'.db && Covered(s', Signal(id, s'.db[id].row.generation)))
  }

  lemma CoverageCarries(s: System, s': System)
    requires Coverage(s) && (s.lost ==> s'.lost)
    requires !s'.lost ==> forall k {:trigger Keeps(s, s', k)} :: Keeps(s, s', k)
    requires !s'.lost ==> forall id {:trigger NoNewPublication(s, s', id)} :: NoNewPublication(s, s', id)
    requires !s'.lost ==> forall t | t in s'.tasks && s'.tasks[t].phase.Replaced? ::
               Covered(s', s'.tasks[t].signal) || (t in s.tasks && s'.tasks[t] == s.tasks[t])
    requires !s'.lost ==> forall c | Confirmed(s', c) ::
               Covered(s', s'.cycles[c].keys[s'.cycles[c].next]) || (c in s.cycles && s'.cycles[c] == s.cycles[c])
    ensures Coverage(s')
  {
    if !s'.lost {
      forall id ensures RowCovered(s', id) {
        assert RowCovered(s, id) && NoNewPublication(s, s', id);
        if id in s.db { assert Keeps(s, s', Signal(id, s.db[id].row.generation)); }
      }
      forall t ensures TaskCovered(s', t) {
        assert TaskCovered(s, t);
        if t in s.tasks { assert Keeps(s, s', s.tasks[t].signal); }
      }
      forall c ensures CycleCovered(s', c) {
        assert CycleCovered(s, c);
        if Confirmed(s, c) { assert Keeps(s, s', s.cycles[c].keys[s.cycles[c].next]); }
      }
    }
  }

  // ----- Nothing covered is dropped

  lemma LiveKept(s: System, s': System, signal: Signal)
    requires Advances(s, s')
    requires Live(s, signal) ==> Covered(s', signal)
    ensures Keeps(s, s', signal)
  {
    SignalStays(s, s', signal);
  }

  /** Messages and handlers are as before. */
  lemma SameMessages(s: System, s': System)
    requires Advances(s, s')
    requires s'.tasks == s.tasks
    requires forall k | k in s.ready || k in s.deferred :: k in s'.ready || k in s'.deferred
    ensures forall k {:trigger Keeps(s, s', k)} :: Keeps(s, s', k)
  {
    forall k ensures Keeps(s, s', k) {
      if Live(s, k) && k !in s.ready && k !in s.deferred {
        var t :| Holds(s, t, k);
        assert Holds(s', t, k);
      }
      LiveKept(s, s', k);
    }
  }

  /** One handler moves or goes; its own signal must stay covered. */
  lemma OneHandler(s: System, s': System, t: nat, signal: Signal)
    requires Advances(s, s')
    requires t in s.tasks ==> s.tasks[t].signal == signal
    requires forall x | x in s.tasks && x != t :: x in s'.tasks && s'.tasks[x] == s.tasks[x]
    requires forall k | k != signal && (k in s.ready || k in s.deferred) :: k in s'.ready || k in s'.deferred
    requires Live(s, signal) ==> Covered(s', signal)
    ensures forall k {:trigger Keeps(s, s', k)} :: Keeps(s, s', k)
  {
    forall k ensures Keeps(s, s', k) {
      if k != signal && Live(s, k) && k !in s.ready && k !in s.deferred {
        var x :| Holds(s, x, k);
        assert Holds(s', x, k);
      }
      LiveKept(s, s', k);
    }
  }

  // ----- API, maintenance, broker

  lemma DatabaseCoverage(s: System, s': System)
    requires Inv(s) && Coverage(s) && Advances(s, s')
    requires s'.ready == s.ready && s'.deferred == s.deferred && s'.tasks == s.tasks
    requires s'.cycles == s.cycles && s'.lost == s.lost
    requires forall id {:trigger NoNewPublication(s, s', id)} :: NoNewPublication(s, s', id)
    ensures Coverage(s')
  {
    SameMessages(s, s');
    CoverageCarries(s, s');
  }

  /** A new or replayed record has its current event unpublished. */
  lemma FreshUnpublished(db: Database, x: Id, r: Record, id: Id)
    requires !CurrentPublished(r)
    ensures PublishesNothing(db, db[x := r], id)
  {
  }

  lemma ApiPublishesNothing(s: System, step: ApiStep, id: Id)
    ensures PublishesNothing(s.db, ApiNext(s, step).db, id)
  {
    match step
    case Submit(x, request, acceptedAt, at) =>
      FreshUnpublished(s.db, x, FreshRecord(request, acceptedAt, acceptedAt + DAY, at), id);
    case Replay(x, operator, reason, replayedAt, _) =>
      if x in s.db {
        FreshUnpublished(s.db, x, ReplayRecord(s.db[x], operator, reason, replayedAt), id);
      }
  }

  lemma ApiCoverage(s: System, step: ApiStep)
    requires Inv(s) && Coverage(s) && ApiEnabled(s, step)
    ensures Coverage(ApiNext(s, step))
  {
    StepKeeps(s, Api(step));
    forall id ensures NoNewPublication(s, ApiNext(s, step), id) {
      ApiPublishesNothing(s, step, id);
    }
    DatabaseCoverage(s, ApiNext(s, step));
  }

  lemma MaintenanceCoverage(s: System, step: MaintenanceStep)
    requires Inv(s) && Coverage(s) && MaintenanceEnabled(s, step)
    ensures Coverage(MaintenanceNext(s, step))
  {
    var s' := MaintenanceNext(s, step);
    MaintenanceKeeps(s, step);
    forall id ensures NoNewPublication(s, s', id) {
      assert RowAt(s, id);
    }
    DatabaseCoverage(s, s');
  }

  lemma BrokerCoverage(s: System, step: BrokerStep)
    requires Inv(s) && Coverage(s) && BrokerEnabled(s, step)
    ensures Coverage(BrokerNext(s, step))
  {
    var s' := BrokerNext(s, step);
    BrokerKeeps(s, step);
    if !step.Lose? {
      SameMessages(s, s');
      forall id ensures NoNewPublication(s, s', id) {
      }
      CoverageCarries(s, s');
    }
  }

  // ----- Publisher

  lemma PublisherPublishesConfirmed(s: System, c: nat, step: PublisherStep, id: Id)
    requires PublisherEnabled(s, c, step)
    requires step.Mark? ==> Covered(PublisherNext(s, c, step), s.cycles[c].keys[s.cycles[c].next])
    ensures NoNewPublication(s, PublisherNext(s, c, step), id)
  {
  }

  lemma PublisherCoverage(s: System, c: nat, step: PublisherStep)
    requires Inv(s) && Coverage(s) && PublisherEnabled(s, c, step)
    ensures Coverage(PublisherNext(s, c, step))
  {
    var s' := PublisherNext(s, c, step);
    if !s.lost {
      PublisherKeeps(s, c, step);
      SameMessages(s, s');
      if step.Mark? {
        assert CycleCovered(s, c) && Keeps(s, s', s.cycles[c].keys[s.cycles[c].next]);
      }
      forall id ensures NoNewPublication(s, s', id) {
        PublisherPublishesConfirmed(s, c, step, id);
      }
    }
    CoverageCarries(s, s');
  }

  // ----- Worker

  /** The bookkeeping of a handler step: one task moves, and its message is acknowledged, kept,
      replaced or put back. */
  lemma HandlerTasks(s: System, t: nat, step: WorkerStep, signal: Signal)
    requires WorkerEnabled(s, t, step)
    requires signal == if step.Deliver? then step.signal else s.tasks[t].signal
    ensures var s' := WorkerNext(s, t, step);
            && s'.cycles == s.cycles && s'.lost == s.lost
            && (forall x | x in s.tasks && x != t :: x in s'.tasks && s'.tasks[x] == s.tasks[x])
            && (forall x | x in s'.tasks && x != t :: x in s.tasks)
            && (t in s'.tasks ==> s'.tasks[t].signal == signal)
  {
    match step
    case ClaimRow(_, _, _, _) =>
    case _ =>
  }

  lemma HandlerQueues(s: System, t: nat, step: WorkerStep, signal: Signal)
    requires WorkerEnabled(s, t, step)
    requires signal == if step.Deliver? then step.signal else s.tasks[t].signal
    ensures var s' := WorkerNext(s, t, step);
            && (forall k | k != signal && (k in s.ready || k in s.deferred) :: k in s'.ready || k in s'.deferred)
            && (step.Ack? ==> t !in s'.tasks && s'.ready == s.ready && s'.deferred == s.deferred)
  {
  }

  lemma HandlerSettles(s: System, t: nat, step: WorkerStep, signal: Signal)
    requires WorkerEnabled(s, t, step)
    requires signal == if step.Deliver? then step.signal else s.tasks[t].signal
    ensures var s' := WorkerNext(s, t, step);
            && (t in s'.tasks && s'.tasks[t].phase.Replaced? ==> signal in s'.deferred)
            && (t !in s'.tasks ==> step.Ack? || signal in s'.ready)
  {
  }

  lemma HandlerPublishesNothing(s: System, t: nat, step: WorkerStep, id: Id)
    requires RowAt(s, id) && WorkerEnabled(s, t, step)
    ensures PublishesNothing(s.db, WorkerNext(s, t, step).db, id)
  {
    HandlerStatement(s, t, step);
  }

  lemma AckCovered(s: System, t: nat, signal: Signal)
    requires Inv(s) && WorkerEnabled(s, t, Ack) && signal == s.tasks[t].signal
    ensures Live(s, signal) ==> Covered(WorkerNext(s, t, Ack), signal)
  {
    var s' := WorkerNext(s, t, Ack);
    assert TaskAt(s, t);
    if s.tasks[t].phase.Replaced? && Live(s, signal) && signal !in s.ready && signal !in s.deferred {
      var x :| Holds(s, x, signal);
      assert Holds(s', x, signal);
    }
  }

  lemma WorkerCoverage(s: System, t: nat, step: WorkerStep)
    requires Inv(s) && Coverage(s) && WorkerEnabled(s, t, step)
    ensures Coverage(WorkerNext(s, t, step))
  {
    var s' := WorkerNext(s, t, step);
    var signal := if step.Deliver? then step.signal else s.tasks[t].signal;
    WorkerKeeps(s, t, step);
    HandlerTasks(s, t, step, signal);
    HandlerQueues(s, t, step, signal);
    HandlerSettles(s, t, step, signal);
    if step.Ack? {
      AckCovered(s, t, signal);
    } else if t in s'.tasks && !s'.tasks[t].phase.Replaced? {
      assert Holds(s', t, signal);
    }
    OneHandler(s, s', t, signal);
    forall id ensures NoNewPublication(s, s', id) {
      assert RowAt(s, id);
      HandlerPublishesNothing(s, t, step, id);
    }
    CoverageCarries(s, s');
  }

  // ----- Every run

  lemma StepCoverage(s: System, step: Step)
    requires Inv(s) && Coverage(s) && Enabled(s, step)
    ensures Coverage(Next(s, step))
  {
    match step
    case Api(api) => ApiCoverage(s, api);
    case Publisher(c, publisher) => PublisherCoverage(s, c, publisher);
    case Worker(t, worker) => WorkerCoverage(s, t, worker);
    case Broker(broker) => BrokerCoverage(s, broker);
    case Maintenance(maintenance) => MaintenanceCoverage(s, maintenance);
  }

  lemma {:induction false} RunCoverage(s: System, steps: seq<Step>)
    requires Inv(s) && Coverage(s) && ValidRun(s, steps)
    ensures Coverage(Run(s, steps))
    decreases |steps|
  {
    if steps == [] {
    } else {
      StepKeeps(s, steps[0]);
      StepCoverage(s, steps[0]);
      RunCoverage(Next(s, steps[0]), steps[1..]);
    }
  }

  lemma ReachableCoverage(s: System)
    requires Reachable(s)
    ensures Coverage(s)
  {
    var cfg, start, steps: seq<Step> :|
      && ValidConfig(cfg)
      && ValidRun(Init(cfg, start), steps)
      && s == Run(Init(cfg, start), steps);
    RunCoverage(Init(cfg, start), steps);
  }
}
