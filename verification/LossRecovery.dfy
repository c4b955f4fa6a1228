/** Whatever the broker has lost, the database alone can bring every waiting delivery back to a
    Worker: an explicit continuation, and a bound on when its signal is enqueued again. */
module LossRecovery {
  import opened Model
  import opened Statements
  import opened Protocol
  import opened Runs
  import opened Invariant
  import opened Preservation

  // ----- The continuation

  /** When the delivery can be sent: now, or when it is due. */
  function DueAt(s: System, id: Id): Time
    requires id in s.db
  {
    Max(s.now, s.db[id].row.nextAttemptAt)
  }

  /** When its event can be claimed by a Publisher: at once if it is missing or free, after the
      Publisher lease if it is leased, after the watchdog if it is marked published. */
  function EnqueueAt(s: System, id: Id): Time
    requires id in s.db
  {
    var r := s.db[id];
    if r.row.generation !in r.events then DueAt(s, id)
    else
      var e := r.events[r.row.generation];
      if e.publishedAt.Some? then
        Max(DueAt(s, id),
            Max(e.publishedAt.value, if e.observedAt.Some? then e.observedAt.value else e.publishedAt.value)
            + s.cfg.watchdog)
      else if e.lease.Some? then Max(DueAt(s, id), e.lease.value.until)
      else DueAt(s, id)
  }

  /** The maintenance pass that makes the event claimable. */
  function RepairStep(s: System, id: Id): Step
    requires id in s.db
  {
    var r := s.db[id];
    var at := EnqueueAt(s, id);
    if r.row.generation !in r.events then Maintenance(ScheduleRetries({id}, at, at))
    else if r.events[r.row.generation].publishedAt.Some? then Maintenance(ReconcileSignals({id}, at, at))
    else Maintenance(Tick(at))
  }

  function PublishSteps(c: nat, signal: Signal, at: Time): seq<Step> {
    [Publisher(c, ClaimBatch("publisher", 0, [signal], at)), Publisher(c, Publish(true, true))]
  }

  function ClaimSteps(t: nat, signal: Signal, at: Time): seq<Step> {
    [Worker(t, Deliver(signal)),
     Worker(t, Check(Returns, at)),
     Worker(t, NoteObserved(Returns, at)),
     Worker(t, Acquire(true)),
     Worker(t, ClaimRow("worker", 0, Returns, at))]
  }

  // ----- The event becomes claimable in time

  lemma EnqueueInTime(s: System, id: Id)
    requires Inv(s) && id in s.db && s.db[id].row.status == Pending && s.cfg.outboxLease <= s.cfg.watchdog
    ensures DueAt(s, id) <= EnqueueAt(s, id) <= DueAt(s, id) + s.cfg.watchdog
  {
    assert RowAt(s, id);
  }

  /** After the repair pass the event can be claimed and the row is as it was. */
  predicate Repaired(s: System, id: Id, s': System)
    requires id in s.db
  {
    && id in s'.db && s'.db[id].row == s.db[id].row
    && s'.now == EnqueueAt(s, id)
    && s'.tasks == s.tasks && s'.cycles == s.cycles
    && Publishable(s'.db, Signal(id, s.db[id].row.generation), s'.now)
  }

  lemma ScheduleRepairs(s: System, id: Id)
    requires Inv(s) && id in s.db && s.db[id].row.status == Pending
    requires EnqueueAt(s, id) < s.db[id].row.retryDeadline
    requires s.db[id].row.generation !in s.db[id].events
    ensures var step := ScheduleRetries({id}, EnqueueAt(s, id), EnqueueAt(s, id));
            MaintenanceEnabled(s, step) && Repaired(s, id, MaintenanceNext(s, step))
  {
    assert RowAt(s, id);
    assert NeedsEvent(s.db[id], EnqueueAt(s, id), EnqueueAt(s, id));
  }

  lemma ReconcileRepairs(s: System, id: Id)
    requires Inv(s) && id in s.db && s.db[id].row.status == Pending
    requires EnqueueAt(s, id) < s.db[id].row.retryDeadline
    requires s.db[id].row.generation in s.db[id].events
    requires s.db[id].events[s.db[id].row.generation].publishedAt.Some?
    ensures var step := ReconcileSignals({id}, EnqueueAt(s, id), EnqueueAt(s, id));
            MaintenanceEnabled(s, step) && Repaired(s, id, MaintenanceNext(s, step))
  {
    assert RowAt(s, id);
    assert Stalled(s.db[id], s.cfg.watchdog, EnqueueAt(s, id), EnqueueAt(s, id));
  }

  lemma WaitingRepairs(s: System, id: Id)
    requires Inv(s) && id in s.db && s.db[id].row.status == Pending
    requires s.db[id].row.generation in s.db[id].events
    requires s.db[id].events[s.db[id].row.generation].publishedAt.None?
    ensures var step := Tick(EnqueueAt(s, id));
            MaintenanceEnabled(s, step) && Repaired(s, id, MaintenanceNext(s, step))
  {
    assert RowAt(s, id);
  }

  lemma RepairWorks(s: System, id: Id)
    requires Inv(s) && id in s.db && s.db[id].row.status == Pending
    requires EnqueueAt(s, id) < s.db[id].row.retryDeadline
    ensures Enabled(s, RepairStep(s, id)) && Repaired(s, id, Next(s, RepairStep(s, id)))
  {
    var r := s.db[id];
    if r.row.generation !in r.events {
      ScheduleRepairs(s, id);
    } else if r.events[r.row.generation].publishedAt.Some? {
      ReconcileRepairs(s, id);
    } else {
      WaitingRepairs(s, id);
    }
  }

  // ----- From a claimable event to a claimed delivery

  lemma PublishWorks(s: System, c: nat, signal: Signal)
    requires Inv(s) && c !in s.cycles && Publishable(s.db, signal, s.now)
    ensures ValidRun(s, PublishSteps(c, signal, s.now))
    ensures var s' := Run(s, PublishSteps(c, signal, s.now));
            && Inv(s')
            && signal in s'.ready
            && s'.now == s.now && s'.tasks == s.tasks
            && signal.id in s'.db && s'.db[signal.id].row == s.db[signal.id].row
  {
    var first := Publisher(c, ClaimBatch("publisher", 0, [signal], s.now));
    var second := Publisher(c, Publish(true, true));
    var s1 := Next(s, first);
    var s2 := Next(s1, second);
    LeadsTwo(s, first, s1, second, s2);
    RunKeeps(s, PublishSteps(c, signal, s.now));
  }

  /** Handler `t` holds the claimable `signal` in `phase`. */
  predicate At(s: System, t: nat, signal: Signal, phase: Phase) {
    t in s.tasks && s.tasks[t] == Task(signal, phase) && Claimable(s.db, signal, s.now)
  }

  lemma HandlerChecks(s: System, t: nat, signal: Signal)
    requires At(s, t, signal, Received)
    ensures var step := Check(Returns, s.now);
            && WorkerEnabled(s, t, step)
            && At(WorkerNext(s, t, step), t, signal, Checked)
            && WorkerNext(s, t, step).now == s.now
  {
  }

  lemma HandlerObserves(s: System, t: nat, signal: Signal)
    requires At(s, t, signal, Checked)
    ensures var step := NoteObserved(Returns, s.now);
            && WorkerEnabled(s, t, step)
            && At(WorkerNext(s, t, step), t, signal, Observed)
            && WorkerNext(s, t, step).now == s.now
  {
  }

  lemma HandlerClaims(s: System, t: nat, signal: Signal)
    requires At(s, t, signal, Permitted)
    ensures var step := ClaimRow("worker", 0, Returns, s.now);
            && WorkerEnabled(s, t, step)
            && var s' := WorkerNext(s, t, step);
               && signal.id in s'.db
               && s'.db[signal.id].row.status == Delivering
               && s'.db[signal.id].row.generation == signal.generation
  {
  }

  lemma JoinClaimSteps(s: System, t: nat, signal: Signal, s2: System, s4: System, s5: System)
    requires Leads(s, [Worker(t, Deliver(signal)), Worker(t, Check(Returns, s.now))], s2)
    requires Leads(s2, [Worker(t, NoteObserved(Returns, s.now)), Worker(t, Acquire(true))], s4)
    requires Leads(s4, [Worker(t, ClaimRow("worker", 0, Returns, s.now))] + [], s5)
    ensures Leads(s, ClaimSteps(t, signal, s.now), s5)
  {
    var a := [Worker(t, Deliver(signal)), Worker(t, Check(Returns, s.now))];
    var b := [Worker(t, NoteObserved(Returns, s.now)), Worker(t, Acquire(true))];
    var c := [Worker(t, ClaimRow("worker", 0, Returns, s.now))] + [];
    LeadsOn(s2, b, s4, c, s5);
    LeadsOn(s, a, s2, b + c, s5);
    assert a + (b + c) == ClaimSteps(t, signal, s.now);
  }

  lemma ClaimWorks(s: System, t: nat, signal: Signal)
    requires t !in s.tasks && signal in s.ready && Claimable(s.db, signal, s.now)
    ensures ValidRun(s, ClaimSteps(t, signal, s.now))
    ensures var s' := Run(s, ClaimSteps(t, signal, s.now));
            && signal.id in s'.db
            && s'.db[signal.id].row.status == Delivering
            && s'.db[signal.id].row.generation == signal.generation
  {
    var s1 := WorkerNext(s, t, Deliver(signal));
    HandlerChecks(s1, t, signal);
    var s2 := WorkerNext(s1, t, Check(Returns, s.now));
    HandlerObserves(s2, t, signal);
    var s3 := WorkerNext(s2, t, NoteObserved(Returns, s.now));
    var s4 := WorkerNext(s3, t, Acquire(true));
    HandlerClaims(s4, t, signal);
    var s5 := WorkerNext(s4, t, ClaimRow("worker", 0, Returns, s.now));
    LeadsTwo(s, Worker(t, Deliver(signal)), s1, Worker(t, Check(Returns, s.now)), s2);
    LeadsTwo(s2, Worker(t, NoteObserved(Returns, s.now)), s3, Worker(t, Acquire(true)), s4);
    LeadsNowhere(s5);
    LeadsVia(s4, Worker(t, ClaimRow("worker", 0, Returns, s.now)), [], s5);
    JoinClaimSteps(s, t, signal, s2, s4, s5);
  }

  // ----- The theorem

  /** From every reachable state, whatever messages are left in the broker, a waiting delivery with
      one watchdog interval to spare has a continuation that enqueues its signal within that
      interval of being due and then claims it. */
  lemma RecoversFromLoss(s: System, id: Id, c: nat, t: nat) returns (enqueued: System, claimed: System)
    requires Reachable(s) && c !in s.cycles && t !in s.tasks
    requires s.cfg.outboxLease <= s.cfg.watchdog
    requires id in s.db && s.db[id].row.status == Pending
    requires DueAt(s, id) + s.cfg.watchdog < s.db[id].row.retryDeadline
    ensures var signal := Signal(id, s.db[id].row.generation);
            var at := EnqueueAt(s, id);
            && Leads(s, [RepairStep(s, id)] + PublishSteps(c, signal, at), enqueued)
            && signal in enqueued.ready
            && enqueued.now == at <= DueAt(s, id) + s.cfg.watchdog
            && Leads(enqueued, ClaimSteps(t, signal, at), claimed)
            && id in claimed.db
            && claimed.db[id].row.status == Delivering
            && claimed.db[id].row.generation == s.db[id].row.generation
  {
    ReachableInv(s);
    EnqueueInTime(s, id);
    RepairWorks(s, id);
    var signal := Signal(id, s.db[id].row.generation);
    var at := EnqueueAt(s, id);
    var repaired := Next(s, RepairStep(s, id));
    StepKeeps(s, RepairStep(s, id));
    PublishWorks(repaired, c, signal);
    enqueued := Run(repaired, PublishSteps(c, signal, at));
    LeadsVia(s, RepairStep(s, id), PublishSteps(c, signal, at), enqueued);
    assert Claimable(enqueued.db, signal, at);
    ClaimWorks(enqueued, t, signal);
    claimed := Run(enqueued, ClaimSteps(t, signal, at));
  }
}
