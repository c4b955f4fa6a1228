/** Every step of the protocol keeps the invariant, and only goes forward. */
module Preservation {
  import opened Model
  import opened Statements
  import opened Protocol
  import opened Records
  import opened Invariant

  // ----- What carries over by itself

  lemma ApartStays(s: System, s': System, a: Signal, b: Signal)
    requires Inv(s) && Advances(s, s') && a in s.claims && b in s.claims
    ensures ApartAt(s', a, b)
  {
    assert ApartAt(s, a, b) && HistoryAdvances(s, s', a) && HistoryAdvances(s, s', b);
  }

  lemma ApartAllStays(s: System, s': System)
    requires Inv(s) && Advances(s, s') && s'.claims == s.claims
    ensures forall a, b {:trigger ApartAt(s', a, b)} :: ApartAt(s', a, b)
  {
    forall a, b
      ensures ApartAt(s', a, b)
    {
      if a in s.claims && b in s.claims {
        ApartStays(s, s', a, b);
      }
    }
  }

  lemma ClaimsStay(s: System, s': System)
    requires Inv(s) && Advances(s, s')
    requires s'.claims == s.claims && s'.ended == s.ended
    ensures forall signal {:trigger ClaimAt(s', signal)} :: ClaimAt(s', signal)
  {
    forall signal
      ensures ClaimAt(s', signal)
    {
      assert ClaimAt(s, signal);
      if signal in s.claims {
        ClaimStays(s, s', signal);
      }
    }
  }

  lemma TaskStays(s: System, s': System, t: nat)
    requires Inv(s) && Advances(s, s')
    requires t in s.tasks && t in s'.tasks && s'.tasks[t] == s.tasks[t]
    requires s.tasks[t].phase.Sending? ==> s.tasks[t].signal !in s'.ended
    ensures TaskAt(s', t)
  {
    assert TaskAt(s, t);
    SignalStays(s, s', s.tasks[t].signal);
    assert HistoryAdvances(s, s', s.tasks[t].signal);
  }

  lemma TasksStay(s: System, s': System)
    requires Inv(s) && Advances(s, s') && s'.tasks == s.tasks && s'.ended == s.ended
    ensures forall t {:trigger TaskAt(s', t)} :: TaskAt(s', t)
  {
    forall t
      ensures TaskAt(s', t)
    {
      assert TaskAt(s, t);
      if t in s.tasks {
        TaskStays(s, s', t);
      }
    }
  }

  lemma QueuesStay(s: System, s': System)
    requires Inv(s) && Advances(s, s') && s'.ready == s.ready && s'.deferred == s.deferred
    ensures forall signal {:trigger QueueAt(s', signal)} :: QueueAt(s', signal)
  {
    forall signal
      ensures QueueAt(s', signal)
    {
      assert QueueAt(s, signal);
      SignalStays(s, s', signal);
    }
  }

  lemma CyclesStay(s: System, s': System)
    requires Inv(s) && Advances(s, s')
    requires forall c | c in s'.cycles :: c in s.cycles && s'.cycles[c].keys == s.cycles[c].keys
    ensures forall c, key {:trigger CycleAt(s', c, key)} :: CycleAt(s', c, key)
  {
    forall c, key
      ensures CycleAt(s', c, key)
    {
      assert CycleAt(s, c, key);
      SignalStays(s, s', key);
    }
  }

  /** A step that leaves the broker, the handlers and the claims alone. */
  lemma BatchStep(s: System, s': System)
    requires Inv(s) && Advances(s, s')
    requires forall id {:trigger RowAt(s', id)} :: RowAt(s', id)
    requires forall c, key {:trigger CycleAt(s', c, key)} :: CycleAt(s', c, key)
    requires s'.ready == s.ready && s'.deferred == s.deferred && s'.tasks == s.tasks
    requires s'.claims == s.claims && s'.ended == s.ended
    ensures Inv(s')
  {
    ApartAllStays(s, s');
    ClaimsStay(s, s');
    TasksStay(s, s');
    QueuesStay(s, s');
  }

  /** The same, when no key is added to a cycle. */
  lemma DatabaseStep(s: System, s': System)
    requires Inv(s) && Advances(s, s')
    requires forall id {:trigger RowAt(s', id)} :: RowAt(s', id)
    requires s'.ready == s.ready && s'.deferred == s.deferred && s'.tasks == s.tasks
    requires s'.claims == s.claims && s'.ended == s.ended
    requires forall c | c in s'.cycles :: c in s.cycles && s'.cycles[c].keys == s.cycles[c].keys
    ensures Inv(s')
  {
    CyclesStay(s, s');
    BatchStep(s, s');
  }

  // ----- API and maintenance

  /** A row that a step left alone. */
  lemma RowStays(s: System, s': System, id: Id)
    requires Inv(s) && s.now <= s'.now && s.cfg == s'.cfg
    requires id in s'.db ==> id in s.db && s'.db[id] == s.db[id] && id in s.logs && id in s'.logs && s'.logs[id] == s.logs[id]
    requires forall k | k in s.claims :: k in s'.claims
    requires forall k | k in s.ended :: k in s'.ended
    requires id in s.logs ==> id in s'.logs
    ensures RowAt(s', id) && IdAdvances(s, s', id)
  {
    assert RowAt(s, id);
    if id in s'.db {
      GoodLater(s.db[id], s.logs[id], s.cfg, s.now, s'.now);
    }
  }

  /** Only the clock and the progress of cycles change. */
  lemma ClockStep(s: System, s': System)
    requires Inv(s) && s.now <= s'.now
    requires s' == s.(now := s'.now, cycles := s'.cycles)
    requires forall c | c in s'.cycles :: c in s.cycles && s'.cycles[c].keys == s.cycles[c].keys
    ensures Inv(s') && Advances(s, s')
  {
    forall id
      ensures RowAt(s', id) && IdAdvances(s, s', id)
    {
      assert RowAt(s, id);
      RowStays(s, s', id);
    }
    DatabaseStep(s, s');
  }

  lemma SubmitKeeps(s: System, id: Id, request: Request, acceptedAt: Time, at: Time)
    requires Inv(s) && s.now <= at && id !in s.logs
    ensures var s' := ApiNext(s, Submit(id, request, acceptedAt, at)); Inv(s') && Advances(s, s')
  {
    if Admits(s, request) {
      var s' := ApiNext(s, Submit(id, request, acceptedAt, at));
      forall x
        ensures RowAt(s', x) && IdAdvances(s, s', x)
      {
        assert RowAt(s, x);
        if x == id {
          FreshGood(request, acceptedAt, s.cfg, at);
        } else {
          RowStays(s, s', x);
        }
      }
      DatabaseStep(s, s');
    } else {
      ClockStep(s, s.(now := at));
    }
  }

  lemma ReplayKeeps(s: System, id: Id, operator: string, reason: string, replayedAt: Time, at: Time)
    requires Inv(s) && s.now <= at && replayedAt <= at
    ensures var s' := ApiNext(s, Replay(id, operator, reason, replayedAt, at)); Inv(s') && Advances(s, s')
  {
    if Replayable(s.db, id) {
      var s' := ApiNext(s, Replay(id, operator, reason, replayedAt, at));
      forall x
        ensures RowAt(s', x) && IdAdvances(s, s', x)
      {
        assert RowAt(s, x);
        if x == id {
          GoodLater(s.db[id], s.logs[id], s.cfg, s.now, at);
          ReplayGood(s.db[id], s.logs[id], s.cfg, operator, reason, replayedAt, at);
        } else {
          RowStays(s, s', x);
        }
      }
      DatabaseStep(s, s');
    } else {
      ClockStep(s, s.(now := at));
    }
  }

  lemma ScheduleKeeps(s: System, step: MaintenanceStep)
    requires Inv(s) && step.ScheduleRetries? && MaintenanceEnabled(s, step)
    ensures Inv(MaintenanceNext(s, step)) && Advances(s, MaintenanceNext(s, step))
  {
    var s' := MaintenanceNext(s, step);
    forall id
      ensures RowAt(s', id) && IdAdvances(s, s', id)
    {
      assert RowAt(s, id);
      if id in s.db {
        GoodLater(s.db[id], s.logs[id], s.cfg, s.now, step.clock);
        ScheduleGood(s.db[id], id in step.due, s.logs[id], s.cfg, step.statement, step.clock);
      }
    }
    DatabaseStep(s, s');
  }

  lemma RecoverKeeps(s: System, step: MaintenanceStep)
    requires Inv(s) && step.RecoverLeases? && MaintenanceEnabled(s, step)
    ensures Inv(MaintenanceNext(s, step)) && Advances(s, MaintenanceNext(s, step))
  {
    var s' := MaintenanceNext(s, step);
    forall id
      ensures RowAt(s', id) && IdAdvances(s, s', id)
    {
      assert RowAt(s, id);
      if id in step.picked {
        GoodLater(s.db[id], s.logs[id], s.cfg, s.now, step.finished);
        RecoverGood(s.db[id], s.logs[id], s.cfg, step.statement, step.clock, step.finished);
      } else {
        RowStays(s, s', id);
      }
    }
    DatabaseStep(s, s');
  }

  lemma ReconcileKeeps(s: System, step: MaintenanceStep)
    requires Inv(s) && step.ReconcileSignals? && MaintenanceEnabled(s, step)
    ensures Inv(MaintenanceNext(s, step)) && Advances(s, MaintenanceNext(s, step))
  {
    var s' := MaintenanceNext(s, step);
    forall id
      ensures RowAt(s', id) && IdAdvances(s, s', id)
    {
      assert RowAt(s, id);
      if id in step.picked {
        GoodLater(s.db[id], s.logs[id], s.cfg, s.now, step.clock);
        ReconcileGood(s.db[id], s.logs[id], s.cfg, step.statement, step.clock);
      } else {
        RowStays(s, s', id);
      }
    }
    DatabaseStep(s, s');
  }

  lemma DeleteKeeps(s: System, step: MaintenanceStep)
    requires Inv(s) && step.DeleteTerminal? && MaintenanceEnabled(s, step)
    ensures Inv(MaintenanceNext(s, step)) && Advances(s, MaintenanceNext(s, step))
  {
    var s' := MaintenanceNext(s, step);
    forall id
      ensures RowAt(s', id) && IdAdvances(s, s', id)
    {
      assert RowAt(s, id);
      RowStays(s, s', id);
    }
    DatabaseStep(s, s');
  }

  // ----- Broker

  /** A step that only moves, adds or drops copies of one known signal. */
  lemma QueueStep(s: System, s': System, signal: Signal)
    requires Inv(s) && Known(s, signal)
    requires s' == s.(ready := s'.ready, deferred := s'.deferred, lost := s'.lost, cycles := s'.cycles)
    requires forall c | c in s'.cycles :: c in s.cycles && s'.cycles[c].keys == s.cycles[c].keys
    requires forall k | k in s'.ready :: k in s.ready || k == signal
    requires forall k | k in s'.deferred :: k in s.deferred || k in s.ready || k == signal
    ensures Inv(s') && Advances(s, s')
  {
    forall id
      ensures RowAt(s', id) && IdAdvances(s, s', id)
    {
      assert RowAt(s, id);
      RowStays(s, s', id);
    }
    ApartAllStays(s, s');
    ClaimsStay(s, s');
    TasksStay(s, s');
    CyclesStay(s, s');
    forall k
      ensures QueueAt(s', k)
    {
      assert QueueAt(s, k);
    }
  }

  lemma PresentKnown(s: System, signal: Signal)
    requires Inv(s) && Present(s, signal)
    ensures Known(s, signal)
  {
    assert QueueAt(s, signal);
    if signal !in s.ready && signal !in s.deferred {
      var t :| t in s.tasks && s.tasks[t].signal == signal;
      assert TaskAt(s, t);
    }
  }

  lemma BrokerKeeps(s: System, step: BrokerStep)
    requires Inv(s) && BrokerEnabled(s, step)
    ensures Inv(BrokerNext(s, step)) && Advances(s, BrokerNext(s, step))
  {
    PresentKnown(s, step.signal);
    QueueStep(s, BrokerNext(s, step), step.signal);
  }

  // ----- Publisher

  lemma EventStep(s: System, s': System, key: Signal, e: Event)
    requires Inv(s) && s.now <= s'.now && HasEvent(s.db, key)
    requires s' == s.(now := s'.now, db := WithEvent(s.db, key, e), cycles := s'.cycles, tasks := s'.tasks)
    requires e.availableAt == EventOf(s.db, key).availableAt
    requires e.publishedAt.Some? ==>
               e.lease.None? && e.publishedAt.value <= s'.now &&
               (e.publishedAt == EventOf(s.db, key).publishedAt ||
                (e.availableAt <= s'.now && e.publishedAt.value == s'.now))
    requires e.lease.Some? ==> e.lease == EventOf(s.db, key).lease
    requires e.observedAt.Some? ==> e.observedAt.value <= s'.now
    ensures Advances(s, s')
    ensures forall id {:trigger RowAt(s', id)} :: RowAt(s', id)
  {
    forall id
      ensures RowAt(s', id) && IdAdvances(s, s', id)
    {
      assert RowAt(s, id);
      if id == key.id {
        GoodLater(s.db[id], s.logs[id], s.cfg, s.now, s'.now);
        EventGood(s.db[id], key.generation, e, s.logs[id], s.cfg, s'.now);
      } else {
        RowStays(s, s', id);
      }
    }
  }

  lemma PublishableKnown(s: System, key: Signal, at: Time)
    requires Inv(s) && s.now <= at && Publishable(s.db, key, at)
    ensures Known(s.(now := at), key)
  {
    assert RowAt(s, key.id);
  }

  lemma LeasedAvailable(s: System, key: Signal)
    requires Inv(s) && HasEvent(s.db, key) && EventOf(s.db, key).lease.Some?
    ensures EventOf(s.db, key).availableAt <= s.now
    ensures EventOf(s.db, key).observedAt.Some? ==> EventOf(s.db, key).observedAt.value <= s.now
  {
    assert RowAt(s, key.id);
  }

  lemma ClaimBatchRow(s: System, s': System, keys: set<Signal>, lease: Lease, id: Id)
    requires Inv(s) && s.now <= s'.now && lease.until == s'.now + s.cfg.outboxLease
    requires forall k | k in keys :: Publishable(s.db, k, s'.now)
    requires s' == s.(now := s'.now, db := ClaimOutbox(s.db, keys, lease), cycles := s'.cycles)
    ensures RowAt(s', id) && IdAdvances(s, s', id)
  {
    assert RowAt(s, id);
    if id in s.db {
      GoodLater(s.db[id], s.logs[id], s.cfg, s.now, s'.now);
      forall g | g in s.db[id].events && Signal(id, g) in keys
        ensures s.db[id].events[g].publishedAt.None? && s.db[id].events[g].availableAt <= s'.now
      {
        assert Publishable(s.db, Signal(id, g), s'.now);
      }
      LeaseGood(s.db[id], id, keys, lease, s.logs[id], s.cfg, s'.now);
    }
  }

  lemma ClaimBatchKeeps(s: System, c: nat, step: PublisherStep)
    requires Inv(s) && step.ClaimBatch? && PublisherEnabled(s, c, step)
    ensures Inv(PublisherNext(s, c, step)) && Advances(s, PublisherNext(s, c, step))
  {
    var s' := PublisherNext(s, c, step);
    var keys := set k | k in step.keys;
    forall id
      ensures RowAt(s', id) && IdAdvances(s, s', id)
    {
      ClaimBatchRow(s, s', keys, Lease(step.owner, step.token, step.at + s.cfg.outboxLease), id);
    }
    forall x, key
      ensures CycleAt(s', x, key)
    {
      assert CycleAt(s, x, key);
      SignalStays(s, s', key);
      if x == c && key in step.keys {
        PublishableKnown(s, key, step.at);
      }
    }
    BatchStep(s, s');
  }

  lemma MarkKeeps(s: System, c: nat, step: PublisherStep)
    requires Inv(s) && step.Mark? && PublisherEnabled(s, c, step)
    ensures Inv(PublisherNext(s, c, step)) && Advances(s, PublisherNext(s, c, step))
  {
    var s' := PublisherNext(s, c, step);
    var cycle := s.cycles[c];
    var key := cycle.keys[cycle.next];
    if !step.fate.FailsBefore? && Markable(s.db, key, cycle.owner, cycle.token, step.at) {
      LeasedAvailable(s, key);
      EventStep(s, s', key, EventOf(s.db, key).(publishedAt := Some(step.at), observedAt := None, lease := None));
      DatabaseStep(s, s');
    } else {
      ClockStep(s, s');
    }
  }

  lemma ReleaseKeeps(s: System, c: nat, step: PublisherStep)
    requires Inv(s) && step.Release? && PublisherEnabled(s, c, step)
    ensures Inv(PublisherNext(s, c, step)) && Advances(s, PublisherNext(s, c, step))
  {
    var s' := PublisherNext(s, c, step);
    var cycle := s.cycles[c];
    var key := cycle.keys[cycle.next];
    if !step.fate.FailsBefore? && Releasable(s.db, key, cycle.owner, cycle.token) {
      LeasedAvailable(s, key);
      EventStep(s, s', key, EventOf(s.db, key).(lease := None));
      DatabaseStep(s, s');
    } else {
      ClockStep(s, s');
    }
  }

  lemma PublisherKeeps(s: System, c: nat, step: PublisherStep)
    requires Inv(s) && PublisherEnabled(s, c, step)
    ensures Inv(PublisherNext(s, c, step)) && Advances(s, PublisherNext(s, c, step))
  {
    match step
    case ClaimBatch(_, _, _, _) => ClaimBatchKeeps(s, c, step);
    case Mark(_, _) => MarkKeeps(s, c, step);
    case Release(_) => ReleaseKeeps(s, c, step);
    case Publish(_, _) =>
      var key := s.cycles[c].keys[s.cycles[c].next];
      assert CycleAt(s, c, key);
      QueueStep(s, PublisherNext(s, c, step), key);
    case EndCycle =>
      ClockStep(s, PublisherNext(s, c, step));
  }

  // ----- Worker

  /** The one statement, if any, that a handler step commits. */
  lemma HandlerStatement(s: System, t: nat, step: WorkerStep)
    requires WorkerEnabled(s, t, step)
    ensures WorkerNext(s, t, step).cycles == s.cycles
    ensures var db' := WorkerNext(s, t, step).db;
            || db' == s.db
            || (step.NoteObserved? && db' == Observe(s.db, s.tasks[t].signal, step.at))
            || (step.ClaimRow? &&
                db' == ClaimDelivery(s.db, s.tasks[t].signal,
                                     Lease(step.owner, step.token, step.at + s.cfg.workerLease), step.at))
            || (step.CompleteRow? && db' == Complete(s.db, s.tasks[t].phase.result, s.tasks[t].phase.outcome, step.at))
  {
    match step
    case ClaimRow(_, _, _, _) =>
    case CompleteRow(_, _) =>
    case _ =>
  }

  /** One task moves, appears or goes; claims and sends stay as they are. */
  lemma TaskStep(s: System, s': System, t: nat)
    requires Inv(s) && Advances(s, s')
    requires forall id {:trigger RowAt(s', id)} :: RowAt(s', id)
    requires forall k {:trigger QueueAt(s', k)} :: QueueAt(s', k)
    requires s'.claims == s.claims && s'.ended == s.ended && s'.cycles == s.cycles
    requires forall x | x in s'.tasks && x != t :: x in s.tasks && s'.tasks[x] == s.tasks[x]
    requires TaskAt(s', t)
    ensures Inv(s')
  {
    ApartAllStays(s, s');
    ClaimsStay(s, s');
    CyclesStay(s, s');
    forall x
      ensures TaskAt(s', x)
    {
      assert TaskAt(s, x);
      if x != t && x in s'.tasks {
        TaskStays(s, s', x);
      }
    }
  }

  /** The same for a step that does not touch the database. */
  lemma QuietStep(s: System, s': System, t: nat, signal: Signal)
    requires Inv(s) && s.now <= s'.now && Known(s, signal)
    requires s' == s.(now := s'.now, ready := s'.ready, deferred := s'.deferred, tasks := s'.tasks)
    requires forall k | k in s'.ready :: k in s.ready || k == signal
    requires forall k | k in s'.deferred :: k in s.deferred || k == signal
    requires forall x | x in s'.tasks && x != t :: x in s.tasks && s'.tasks[x] == s.tasks[x]
    requires TaskAt(s', t)
    ensures Inv(s') && Advances(s, s')
  {
    forall id
      ensures RowAt(s', id) && IdAdvances(s, s', id)
    {
      assert RowAt(s, id);
      RowStays(s, s', id);
    }
    forall k
      ensures QueueAt(s', k)
    {
      assert QueueAt(s, k);
      SignalStays(s, s', k);
    }
    TaskStep(s, s', t);
  }

  lemma UnclaimableDead(s: System, signal: Signal, at: Time)
    requires Known(s, signal) && s.now <= at && !Claimable(s.db, signal, at)
    ensures Dead(s.(now := at), signal)
  {
  }

  lemma ObservedRows(s: System, s': System, signal: Signal)
    requires Inv(s) && s.now <= s'.now && HasEvent(s.db, signal)
    requires s' == s.(now := s'.now, tasks := s'.tasks,
                      db := WithEvent(s.db, signal, EventOf(s.db, signal).(observedAt := Some(s'.now))))
    ensures Advances(s, s')
    ensures forall id {:trigger RowAt(s', id)} :: RowAt(s', id)
  {
    assert RowAt(s, signal.id);
    EventStep(s, s', signal, EventOf(s.db, signal).(observedAt := Some(s'.now)));
  }

  lemma NoteObservedKeeps(s: System, t: nat, step: WorkerStep)
    requires Inv(s) && step.NoteObserved? && WorkerEnabled(s, t, step)
    ensures Inv(WorkerNext(s, t, step)) && Advances(s, WorkerNext(s, t, step))
  {
    var s' := WorkerNext(s, t, step);
    var signal := s.tasks[t].signal;
    assert TaskAt(s, t);
    if !step.fate.FailsBefore? && Claimable(s.db, signal, step.at) && HasEvent(s.db, signal) {
      ObservedRows(s, s', signal);
      SignalStays(s, s', signal);
      QueuesStay(s, s');
      TaskStep(s, s', t);
    } else {
      QuietStep(s, s', t, signal);
    }
  }

  lemma CompletedRows(s: System, s': System, result: AttemptResult, outcome: Outcome)
    requires Inv(s) && s.now <= s'.now && Commits(s.db, result, outcome, s'.now)
    requires result.signal in s.ended
    requires s' == s.(now := s'.now, tasks := s'.tasks, db := Complete(s.db, result, outcome, s'.now))
    ensures Advances(s, s')
    ensures forall id {:trigger RowAt(s', id)} :: RowAt(s', id)
  {
    forall id
      ensures RowAt(s', id) && IdAdvances(s, s', id)
    {
      assert RowAt(s, id);
      if id == result.signal.id {
        GoodLater(s.db[id], s.logs[id], s.cfg, s.now, s'.now);
        CompleteGood(s.db[id], s.logs[id], s.cfg, result, outcome, s'.now);
      } else {
        RowStays(s, s', id);
      }
    }
  }

  lemma CompleteKeeps(s: System, t: nat, fate: Fate, at: Time)
    requires Inv(s) && s.now <= at && t in s.tasks && s.tasks[t].phase.Completing?
    ensures Inv(CompleteNext(s, t, fate, at)) && Advances(s, CompleteNext(s, t, fate, at))
  {
    var s' := CompleteNext(s, t, fate, at);
    var signal := s.tasks[t].signal;
    var result := s.tasks[t].phase.result;
    var outcome := s.tasks[t].phase.outcome;
    assert TaskAt(s, t) && ClaimAt(s, signal);
    if !fate.FailsBefore? && Commits(s.db, result, outcome, at) {
      CompletedRows(s, s', result, outcome);
      SignalStays(s, s', signal);
      QueuesStay(s, s');
      TaskStep(s, s', t);
    } else {
      QuietStep(s, s', t, signal);
    }
  }

  /** The send of the handler that holds `signal` ends, and the handler moves on or goes. */
  lemma EndSendKeeps(s: System, s': System, t: nat, signal: Signal)
    requires Inv(s) && s.now <= s'.now && t in s.tasks && s.tasks[t] == Task(signal, Sending)
    requires s' == s.(now := s'.now, ended := s.ended[signal := s'.now], ready := s'.ready, tasks := s'.tasks)
    requires forall k | k in s'.ready :: k in s.ready || k == signal
    requires forall x | x in s'.tasks && x != t :: x in s.tasks && s'.tasks[x] == s.tasks[x]
    requires t in s'.tasks ==> s'.tasks[t].signal == signal && s'.tasks[t].phase.Completing? && TaskAt(s', t)
    ensures Inv(s') && Advances(s, s')
  {
    assert TaskAt(s, t);
    forall id
      ensures RowAt(s', id) && IdAdvances(s, s', id)
    {
      assert RowAt(s, id);
      RowStays(s, s', id);
    }
    forall k
      ensures QueueAt(s', k) && ClaimAt(s', k)
    {
      assert QueueAt(s, k) && ClaimAt(s, k);
      SignalStays(s, s', k);
      SignalStays(s, s', signal);
      if k in s.claims {
        ClaimStays(s, s', k);
      }
    }
    forall x
      ensures TaskAt(s', x)
    {
      assert TaskAt(s, x);
      if x != t && x in s'.tasks {
        TaskStays(s, s', x);
      }
    }
    ApartAllStays(s, s');
    CyclesStay(s, s');
  }

  /** A generation is claimed at most once. */
  lemma ClaimableUnclaimed(s: System, signal: Signal, at: Time)
    requires Inv(s) && Claimable(s.db, signal, at)
    ensures signal !in s.claims && signal !in s.ended
  {
    assert ClaimAt(s, signal);
  }

  predicate Claims(s: System, s': System, t: nat, signal: Signal, lease: Lease) {
    && s.now <= s'.now < lease.until
    && Claimable(s.db, signal, s'.now)
    && s' == s.(now := s'.now,
                db := ClaimDelivery(s.db, signal, lease, s'.now),
                claims := s.claims[signal := Claim(t, lease, s'.now, s.db[signal.id].row.retryDeadline)],
                logs := s'.logs,
                tasks := s'.tasks)
    && (forall x | x in s.logs :: x in s'.logs && (x != signal.id ==> s'.logs[x] == s.logs[x]))
    && (signal.id in s.logs ==>
          || s'.logs[signal.id] == s.logs[signal.id]
          || s'.logs[signal.id] == s.logs[signal.id].(sends := s.logs[signal.id].sends + 1))
  }

  lemma ClaimAdvances(s: System, s': System, t: nat, signal: Signal, lease: Lease)
    requires Inv(s) && Claims(s, s', t, signal, lease)
    ensures Advances(s, s')
    ensures forall id {:trigger RowAt(s', id)} :: RowAt(s', id)
  {
    ClaimableUnclaimed(s, signal, s'.now);
    forall id
      ensures RowAt(s', id) && IdAdvances(s, s', id)
    {
      assert RowAt(s, id);
      if id == signal.id {
        GoodLater(s.db[id], s.logs[id], s.cfg, s.now, s'.now);
        ClaimGood(s.db[id], s.logs[id], s.cfg, lease, s'.now);
      } else {
        RowStays(s, s', id);
      }
    }
  }

  lemma ClaimApart(s: System, s': System, t: nat, signal: Signal, lease: Lease)
    requires Inv(s) && Advances(s, s') && Claims(s, s', t, signal, lease)
    ensures forall a, b {:trigger ApartAt(s', a, b)} :: ApartAt(s', a, b)
  {
    ClaimableUnclaimed(s, signal, s'.now);
    forall a, b
      ensures ApartAt(s', a, b)
    {
      assert ClaimAt(s, a) && ClaimAt(s, b);
      if a in s.claims && b in s.claims {
        ApartStays(s, s', a, b);
      }
    }
  }

  lemma ClaimClaims(s: System, s': System, t: nat, signal: Signal, lease: Lease)
    requires Inv(s) && Advances(s, s') && Claims(s, s', t, signal, lease)
    ensures forall k {:trigger ClaimAt(s', k)} :: ClaimAt(s', k)
  {
    forall k
      ensures ClaimAt(s', k)
    {
      assert ClaimAt(s, k);
      if k == signal {
        assert RowAt(s, signal.id);
      } else if k in s.claims {
        ClaimStays(s, s', k);
      }
    }
  }

  lemma ClaimKeeps(s: System, s': System, t: nat, signal: Signal, lease: Lease)
    requires Inv(s) && Claims(s, s', t, signal, lease)
    requires t in s.tasks && s.tasks[t].signal == signal
    requires s'.tasks == Moved(s, t, Sending) || s'.tasks == Moved(s, t, Failed)
    ensures Inv(s') && Advances(s, s')
  {
    ClaimableUnclaimed(s, signal, s'.now);
    ClaimAdvances(s, s', t, signal, lease);
    ClaimApart(s, s', t, signal, lease);
    ClaimClaims(s, s', t, signal, lease);
    CyclesStay(s, s');
    QueuesStay(s, s');
    SignalStays(s, s', signal);
    forall x
      ensures TaskAt(s', x)
    {
      assert TaskAt(s, x);
      if x != t && x in s'.tasks {
        TaskStays(s, s', x);
      }
    }
  }

  lemma ClaimRowKeeps(s: System, t: nat, step: WorkerStep)
    requires Inv(s) && step.ClaimRow? && WorkerEnabled(s, t, step)
    ensures Inv(WorkerNext(s, t, step)) && Advances(s, WorkerNext(s, t, step))
  {
    var s' := WorkerNext(s, t, step);
    var signal := s.tasks[t].signal;
    assert TaskAt(s, t);
    if !step.fate.FailsBefore? && Claimable(s.db, signal, step.at) {
      ClaimKeeps(s, s', t, signal, Lease(step.owner, step.token, step.at + s.cfg.workerLease));
    } else {
      if !step.fate.FailsBefore? {
        UnclaimableDead(s, signal, step.at);
      }
      QuietStep(s, s', t, signal);
    }
  }

  lemma CheckKeeps(s: System, t: nat, step: WorkerStep)
    requires Inv(s) && step.Check? && WorkerEnabled(s, t, step)
    ensures Inv(WorkerNext(s, t, step)) && Advances(s, WorkerNext(s, t, step))
  {
    var signal := s.tasks[t].signal;
    assert TaskAt(s, t);
    if !Claimable(s.db, signal, step.at) {
      UnclaimableDead(s, signal, step.at);
    }
    QuietStep(s, WorkerNext(s, t, step), t, signal);
  }

  lemma SendReturnsKeeps(s: System, t: nat, step: WorkerStep)
    requires Inv(s) && step.SendReturns? && WorkerEnabled(s, t, step)
    ensures Inv(WorkerNext(s, t, step)) && Advances(s, WorkerNext(s, t, step))
  {
    assert TaskAt(s, t);
    EndSendKeeps(s, WorkerNext(s, t, step), t, s.tasks[t].signal);
  }

  lemma CrashKeeps(s: System, t: nat, step: WorkerStep)
    requires Inv(s) && step.Crash? && WorkerEnabled(s, t, step)
    ensures Inv(WorkerNext(s, t, step)) && Advances(s, WorkerNext(s, t, step))
  {
    assert TaskAt(s, t);
    if s.tasks[t].phase.Sending? {
      EndSendKeeps(s, WorkerNext(s, t, step), t, s.tasks[t].signal);
    } else {
      QuietStep(s, WorkerNext(s, t, step), t, s.tasks[t].signal);
    }
  }

  lemma MessageKeeps(s: System, t: nat, step: WorkerStep)
    requires Inv(s) && WorkerEnabled(s, t, step)
    requires step.Deliver? || step.Acquire? || step.Defer? || step.Ack? || step.Nack?
    ensures Inv(WorkerNext(s, t, step)) && Advances(s, WorkerNext(s, t, step))
  {
    var s' := WorkerNext(s, t, step);
    var signal := if step.Deliver? then step.signal else s.tasks[t].signal;
    assert TaskAt(s, t) && QueueAt(s, signal);
    QuietStep(s, s', t, signal);
  }

  lemma WorkerKeeps(s: System, t: nat, step: WorkerStep)
    requires Inv(s) && WorkerEnabled(s, t, step)
    ensures Inv(WorkerNext(s, t, step)) && Advances(s, WorkerNext(s, t, step))
  {
    match step
    case Check(_, _) => CheckKeeps(s, t, step);
    case NoteObserved(_, _) => NoteObservedKeeps(s, t, step);
    case ClaimRow(_, _, _, _) => ClaimRowKeeps(s, t, step);
    case SendReturns(_, _, _, _, _) => SendReturnsKeeps(s, t, step);
    case CompleteRow(fate, at) => CompleteKeeps(s, t, fate, at);
    case Crash(_) => CrashKeeps(s, t, step);
    case _ => MessageKeeps(s, t, step);
  }

  // ----- Every step, every run

  lemma MaintenanceKeeps(s: System, step: MaintenanceStep)
    requires Inv(s) && MaintenanceEnabled(s, step)
    ensures Inv(MaintenanceNext(s, step)) && Advances(s, MaintenanceNext(s, step))
  {
    match step
    case Tick(at) => ClockStep(s, s.(now := at));
    case ScheduleRetries(_, _, _) => ScheduleKeeps(s, step);
    case RecoverLeases(_, _, _, _) => RecoverKeeps(s, step);
    case ReconcileSignals(_, _, _) => ReconcileKeeps(s, step);
    case DeleteTerminal(_, _, _, _) => DeleteKeeps(s, step);
  }

  lemma StepKeeps(s: System, step: Step)
    requires Inv(s) && Enabled(s, step)
    ensures Inv(Next(s, step)) && Advances(s, Next(s, step))
  {
    match step
    case Api(Submit(id, request, acceptedAt, at)) => SubmitKeeps(s, id, request, acceptedAt, at);
    case Api(Replay(id, operator, reason, replayedAt, at)) => ReplayKeeps(s, id, operator, reason, replayedAt, at);
    case Publisher(c, publisher) => PublisherKeeps(s, c, publisher);
    case Worker(t, worker) => WorkerKeeps(s, t, worker);
    case Broker(broker) => BrokerKeeps(s, broker);
    case Maintenance(maintenance) => MaintenanceKeeps(s, maintenance);
  }

  lemma {:induction false} RunKeeps(s: System, steps: seq<Step>)
    requires Inv(s) && ValidRun(s, steps)
    ensures Inv(Run(s, steps))
    decreases |steps|
  {
    if steps == [] {
    } else {
      StepKeeps(s, steps[0]);
      RunKeeps(Next(s, steps[0]), steps[1..]);
    }
  }

  lemma ReachableInv(s: System)
    requires Reachable(s)
    ensures Inv(s)
  {
    var cfg, start, steps: seq<Step> :|
      && ValidConfig(cfg)
      && ValidRun(Init(cfg, start), steps)
      && s == Run(Init(cfg, start), steps);
    RunKeeps(Init(cfg, start), steps);
  }
}
