/** How late a signal can be.  In every run in which each maintenance and Publisher pass comes at least
    once in every window of a given length, the signal of a waiting delivery is put into the queue, or
    seen by a Worker, within a fixed time of being due, whatever the broker has lost and whatever
    else happens; or the delivery has left that generation. */
module Timeliness {
  import opened Model
  import opened Statements
  import opened Protocol
  import opened Records
  import opened Invariant
  import opened Preservation

  // ----- What is waited for

  /** The delivery still waits in the generation of `key`. */
  predicate Waits(s: System, key: Signal) {
    key.id in s.db && s.db[key.id].row.status == Pending && s.db[key.id].row.generation == key.generation
  }

  /** The step puts `key` into the queue, or records that a Worker has seen it. */
  predicate Serves(s: System, step: Step, key: Signal)
    requires Enabled(s, step)
  {
    || (&& step.Publisher? && step.publisher.Publish? && step.publisher.enqueued
        && s.cycles[step.cycle].keys[s.cycles[step.cycle].next] == key)
    || (&& step.Worker? && step.worker.NoteObserved? && !step.worker.fate.FailsBefore?
        && s.tasks[step.task].signal == key)
  }

  /** Somewhere in the run `key` is served, or its delivery stops waiting for it. */
  predicate Answered(s: System, steps: seq<Step>, key: Signal)
    requires ValidRun(s, steps)
    decreases |steps|
  {
    steps != [] &&
      (|| Serves(s, steps[0], key)
       || !Waits(Next(s, steps[0]), key)
       || Answered(Next(s, steps[0]), steps[1..], key))
  }

  // ----- Passes and their windows

  /** A pass of the retry scheduler that does not pass the delivery over. */
  predicate SchedulePass(s: System, step: Step, key: Signal) {
    && step.Maintenance? && step.maintenance.ScheduleRetries?
    && s.now <= step.maintenance.statement
    && (key.id in NeedsEventIds(s.db, step.maintenance.statement, step.maintenance.clock) ==> key.id in step.maintenance.due)
  }

  predicate ReconcilePass(s: System, step: Step, key: Signal) {
    && step.Maintenance? && step.maintenance.ReconcileSignals?
    && s.now <= step.maintenance.statement
    && (key.id in StalledIds(s.db, s.cfg.watchdog, step.maintenance.statement, step.maintenance.clock) ==>
          key.id in step.maintenance.picked)
  }

  predicate ClaimPass(s: System, step: Step, key: Signal) {
    && step.Publisher? && step.publisher.ClaimBatch?
    && (Publishable(s.db, key, step.publisher.at) ==> key in step.publisher.keys)
  }

  predicate Takes(step: Step, key: Signal) {
    step.Publisher? && step.publisher.ClaimBatch? && key in step.publisher.keys
  }

  /** When each kind of pass was last made, and when a Publisher took `key`, if one did. */
  datatype Timers = Timers(schedule: Time, reconcile: Time, claim: Time, taken: Option<Time>)

  /** The timers after a step that ends at `now`. */
  function Wound(s: System, step: Step, key: Signal, timers: Timers, now: Time): Timers {
    Timers(
      if SchedulePass(s, step, key) then now else timers.schedule,
      if ReconcilePass(s, step, key) then now else timers.reconcile,
      if ClaimPass(s, step, key) then now else timers.claim,
      if timers.taken.None? && Takes(step, key) then Some(now) else timers.taken)
  }

  /** At `now` no window of length `window` is over. */
  predicate InTime(now: Time, timers: Timers, window: Time) {
    && now <= timers.schedule + window
    && now <= timers.reconcile + window
    && now <= timers.claim + window
    && (timers.taken.Some? ==> now <= timers.taken.value + window)
  }

  /** No pass is missed until `key` is served: each comes within every window, and a Publisher that
      takes `key` publishes it within one. */
  predicate Punctual(s: System, steps: seq<Step>, key: Signal, timers: Timers, window: Time)
    requires ValidRun(s, steps)
    decreases |steps|
  {
    steps != [] ==>
      && InTime(Next(s, steps[0]).now, timers, window)
      && (Serves(s, steps[0], key) ||
          Punctual(Next(s, steps[0]), steps[1..], key, Wound(s, steps[0], key, timers, Next(s, steps[0]).now), window))
  }

  // ----- How one step moves the event

  predicate Unleased(e: Event, e': Event) {
    e' == e || e' == e.(lease := None)
  }

  predicate Marked(e: Event, e': Event, now: Time) {
    && e.publishedAt.None? && e.lease.Some? && now < e.lease.value.until
    && e' == e.(publishedAt := Some(now), observedAt := None, lease := None)
  }

  predicate ResetAt(e: Event, e': Event, now: Time) {
    && e.publishedAt.Some? && e.lease.None?
    && e' == e.(availableAt := now, publishedAt := None, observedAt := None)
  }

  /** While the delivery waits and `key` is not served: its event appears, is taken by a batch, loses
      its lease, is marked or is reset, and nothing else. */
  predicate EventMoves(s: System, step: Step, s': System, key: Signal)
    requires Waits(s, key)
  {
    && (!HasEvent(s.db, key) && HasEvent(s'.db, key) ==>
          EventOf(s'.db, key) == Event(s.db[key.id].row.nextAttemptAt, None, None, None))
    && (HasEvent(s.db, key) ==>
          && HasEvent(s'.db, key)
          && var e, e' := EventOf(s.db, key), EventOf(s'.db, key);
             || Takes(step, key)
             || Unleased(e, e')
             || Marked(e, e', s'.now)
             || ResetAt(e, e', s'.now))
  }

  /** Each pass that comes in time does its work. */
  predicate PassWorks(s: System, step: Step, s': System, key: Signal)
    requires Waits(s, key)
  {
    var row := s.db[key.id].row;
    && (SchedulePass(s, step, key) && row.nextAttemptAt <= s'.now < row.retryDeadline ==> HasEvent(s'.db, key))
    && (HasEvent(s.db, key) && HasEvent(s'.db, key) ==>
          var e := EventOf(s.db, key);
          && (&& ReconcilePass(s, step, key) && row.nextAttemptAt <= s'.now < row.retryDeadline
              && e.publishedAt.Some? && e.publishedAt.value + s.cfg.watchdog <= s'.now && e.lease.None?
              && (e.observedAt.Some? ==> e.observedAt.value + s.cfg.watchdog <= s'.now)
              ==> EventOf(s'.db, key).publishedAt.None?)
          && (&& ClaimPass(s, step, key)
              && e.publishedAt.None? && e.availableAt <= s'.now && (e.lease.Some? ==> e.lease.value.until <= s'.now)
              ==> Takes(step, key)))
  }

  predicate Moves(s: System, step: Step, s': System, key: Signal)
    requires Waits(s, key)
  {
    EventMoves(s, step, s', key) && PassWorks(s, step, s', key)
  }

  lemma ApiMoves(s: System, step: ApiStep, key: Signal)
    requires Inv(s) && ApiEnabled(s, step) && Waits(s, key) && Waits(ApiNext(s, step), key)
    ensures Moves(s, Api(step), ApiNext(s, step), key)
  {
    assert RowAt(s, key.id);
  }

  lemma TakeMoves(s: System, c: nat, step: PublisherStep, key: Signal)
    requires PublisherEnabled(s, c, step) && Waits(s, key) && step.ClaimBatch?
    ensures Moves(s, Publisher(c, step), PublisherNext(s, c, step), key)
  {
    if HasEvent(s.db, key) && key !in step.keys {
      assert key !in (set k | k in step.keys);
    }
  }

  lemma PublisherMoves(s: System, c: nat, step: PublisherStep, key: Signal)
    requires PublisherEnabled(s, c, step) && Waits(s, key)
    ensures Moves(s, Publisher(c, step), PublisherNext(s, c, step), key)
  {
    if step.ClaimBatch? {
      TakeMoves(s, c, step, key);
    }
  }

  lemma WorkerMoves(s: System, t: nat, step: WorkerStep, key: Signal)
    requires WorkerEnabled(s, t, step) && Waits(s, key) && Waits(WorkerNext(s, t, step), key)
    requires !Serves(s, Worker(t, step), key)
    ensures Moves(s, Worker(t, step), WorkerNext(s, t, step), key)
  {
    match step
    case ClaimRow(_, _, _, _) =>
    case CompleteRow(_, _) =>
    case _ =>
  }

  lemma MaintenanceMoves(s: System, step: MaintenanceStep, key: Signal)
    requires Inv(s) && MaintenanceEnabled(s, step) && Waits(s, key) && Waits(MaintenanceNext(s, step), key)
    ensures Moves(s, Maintenance(step), MaintenanceNext(s, step), key)
  {
    assert RowAt(s, key.id);
    match step
    case ScheduleRetries(_, _, _) =>
    case ReconcileSignals(_, _, _) =>
    case _ =>
  }

  lemma BrokerMoves(s: System, step: BrokerStep, key: Signal)
    requires BrokerEnabled(s, step) && Waits(s, key)
    ensures Moves(s, Broker(step), BrokerNext(s, step), key)
  {
  }

  lemma StepMoves(s: System, step: Step, key: Signal)
    requires Inv(s) && Enabled(s, step) && Waits(s, key) && Waits(Next(s, step), key) && !Serves(s, step, key)
    ensures Moves(s, step, Next(s, step), key)
  {
    match step
    case Api(api) => ApiMoves(s, api, key);
    case Publisher(c, publisher) => PublisherMoves(s, c, publisher, key);
    case Worker(t, worker) => WorkerMoves(s, t, worker, key);
    case Broker(broker) => BrokerMoves(s, broker, key);
    case Maintenance(maintenance) => MaintenanceMoves(s, maintenance, key);
  }

  // ----- The bound

  /** Where the wait began: the clock, the due time, and the lengths of a window and of the settings. */
  datatype Frame = Frame(start: Time, due: Time, window: Time, outboxLease: Time, watchdog: Time)

  /** A publication from before the wait has stalled by then. */
  function StalledBy(f: Frame): Time {
    Max(f.start + f.outboxLease + f.watchdog, f.due)
  }

  /** The event can be taken by then. */
  function FreeBy(f: Frame): Time {
    StalledBy(f) + f.window
  }

  function ServedBy(f: Frame): Time {
    FreeBy(f) + f.window + f.window
  }

  predicate Framed(s: System, key: Signal, f: Frame) {
    && Waits(s, key)
    && s.cfg.outboxLease == f.outboxLease && s.cfg.watchdog == f.watchdog
    && 0 <= f.outboxLease && 0 <= f.watchdog && 0 <= f.window
    && f.start <= s.now && f.start <= f.due
    && s.db[key.id].row.nextAttemptAt <= f.due
    && ServedBy(f) < s.db[key.id].row.retryDeadline
  }

  /** Which pass the event waits for, and that it has not been missed. */
  predicate Tracked(s: System, key: Signal, timers: Timers, f: Frame) {
    if timers.taken.Some? then timers.taken.value <= FreeBy(f) + f.window
    else if !HasEvent(s.db, key) then timers.schedule <= f.due
    else
      var e := EventOf(s.db, key);
      if e.publishedAt.Some? then
        && e.lease.None?
        && e.publishedAt.value <= f.start + f.outboxLease
        && (e.observedAt.Some? ==> e.observedAt.value <= f.start + f.outboxLease)
        && timers.reconcile <= StalledBy(f)
      else
        && e.availableAt <= FreeBy(f)
        && (e.lease.Some? ==> e.lease.value.until <= f.start + f.outboxLease)
        && timers.claim <= FreeBy(f)
  }

  predicate Current(s: System, timers: Timers, f: Frame) {
    && timers.schedule <= s.now && timers.reconcile <= s.now && timers.claim <= s.now
    && InTime(s.now, timers, f.window)
  }

  lemma TrackedInTime(s: System, key: Signal, timers: Timers, f: Frame)
    requires Framed(s, key, f) && Current(s, timers, f) && Tracked(s, key, timers, f)
    ensures s.now <= ServedBy(f)
  {
  }

  /** The event and the passes move on as `Moves` says, and no window is over. */
  predicate Goes(s: System, step: Step, s': System, key: Signal, timers: Timers, f: Frame) {
    && Framed(s, key, f) && Current(s, timers, f) && Tracked(s, key, timers, f)
    && s.now <= s'.now && InTime(s'.now, timers, f.window)
    && Moves(s, step, s', key)
    && (Takes(step, key) ==> HasEvent(s.db, key) && EventOf(s.db, key).publishedAt.None?)
  }

  lemma TakenStays(s: System, step: Step, s': System, key: Signal, timers: Timers, f: Frame)
    requires Goes(s, step, s', key, timers, f) && (timers.taken.Some? || Takes(step, key))
    ensures Tracked(s', key, Wound(s, step, key, timers, s'.now), f)
  {
  }

  lemma MissingStays(s: System, step: Step, s': System, key: Signal, timers: Timers, f: Frame)
    requires Goes(s, step, s', key, timers, f) && timers.taken.None? && !Takes(step, key)
    requires !HasEvent(s.db, key)
    ensures Tracked(s', key, Wound(s, step, key, timers, s'.now), f)
  {
  }

  lemma PublishedStays(s: System, step: Step, s': System, key: Signal, timers: Timers, f: Frame)
    requires Goes(s, step, s', key, timers, f) && timers.taken.None? && !Takes(step, key)
    requires HasEvent(s.db, key) && EventOf(s.db, key).publishedAt.Some?
    ensures Tracked(s', key, Wound(s, step, key, timers, s'.now), f)
  {
  }

  lemma FreeStays(s: System, step: Step, s': System, key: Signal, timers: Timers, f: Frame)
    requires Goes(s, step, s', key, timers, f) && timers.taken.None? && !Takes(step, key)
    requires HasEvent(s.db, key) && EventOf(s.db, key).publishedAt.None?
    ensures Tracked(s', key, Wound(s, step, key, timers, s'.now), f)
  {
  }

  lemma TrackedStays(s: System, step: Step, s': System, key: Signal, timers: Timers, f: Frame)
    requires Goes(s, step, s', key, timers, f)
    ensures Tracked(s', key, Wound(s, step, key, timers, s'.now), f)
  {
    if timers.taken.Some? || Takes(step, key) {
      TakenStays(s, step, s', key, timers, f);
    } else if !HasEvent(s.db, key) {
      MissingStays(s, step, s', key, timers, f);
    } else if EventOf(s.db, key).publishedAt.Some? {
      PublishedStays(s, step, s', key, timers, f);
    } else {
      FreeStays(s, step, s', key, timers, f);
    }
  }

  lemma TakesFree(s: System, step: Step, key: Signal)
    requires Enabled(s, step) && Takes(step, key)
    ensures HasEvent(s.db, key) && EventOf(s.db, key).publishedAt.None?
  {
    assert Publishable(s.db, key, step.publisher.at);
  }

  lemma FramedStays(s: System, step: Step, s': System, key: Signal, timers: Timers, f: Frame)
    requires Inv(s) && Framed(s, key, f) && Current(s, timers, f)
    requires Enabled(s, step) && s' == Next(s, step) && Waits(s', key) && InTime(s'.now, timers, f.window)
    ensures s.now <= s'.now && Framed(s', key, f) && Current(s', Wound(s, step, key, timers, s'.now), f)
  {
    StepKeeps(s, step);
    assert IdAdvances(s, s', key.id);
  }

  lemma {:induction false} RunTracked(s: System, steps: seq<Step>, key: Signal, timers: Timers, f: Frame)
    requires Inv(s) && Framed(s, key, f) && Current(s, timers, f) && Tracked(s, key, timers, f)
    requires ValidRun(s, steps) && Punctual(s, steps, key, timers, f.window)
    ensures Answered(s, steps, key) || Run(s, steps).now <= ServedBy(f)
    decreases |steps|
  {
    if steps == [] {
      TrackedInTime(s, key, timers, f);
    } else if Serves(s, steps[0], key) || !Waits(Next(s, steps[0]), key) {
    } else {
      var s1 := Next(s, steps[0]);
      StepKeeps(s, steps[0]);
      StepMoves(s, steps[0], key);
      FramedStays(s, steps[0], s1, key, timers, f);
      if Takes(steps[0], key) {
        TakesFree(s, steps[0], key);
      }
      TrackedStays(s, steps[0], s1, key, timers, f);
      RunTracked(s1, steps[1..], key, Wound(s, steps[0], key, timers, s1.now), f);
    }
  }

  /** The latest time for the signal of a delivery that waits in `s`: one Publisher lease and one
      watchdog interval from now, or when it is due if that is later, and three windows more. */
  function Latest(s: System, key: Signal, window: Time): Time
    requires key.id in s.db
  {
    Max(s.now + s.cfg.outboxLease + s.cfg.watchdog, s.db[key.id].row.nextAttemptAt) + 3 * window
  }

  /** From every reachable state, whatever messages the broker still has or loses, in every run that
      misses no pass: when the clock has gone beyond the latest time, the signal has been put into the
      queue or seen by a Worker, or the delivery waits for it no longer. */
  lemma SignalInTime(s: System, steps: seq<Step>, key: Signal, window: Time)
    requires Reachable(s) && Waits(s, key) && 0 <= window && Latest(s, key, window) < s.db[key.id].row.retryDeadline
    requires ValidRun(s, steps) && Punctual(s, steps, key, Timers(s.now, s.now, s.now, None), window)
    ensures Run(s, steps).now <= Latest(s, key, window) || Answered(s, steps, key)
  {
    ReachableInv(s);
    assert RowAt(s, key.id);
    var f := Frame(s.now, Max(s.now, s.db[key.id].row.nextAttemptAt), window, s.cfg.outboxLease, s.cfg.watchdog);
    RunTracked(s, steps, key, Timers(s.now, s.now, s.now, None), f);
  }
}
