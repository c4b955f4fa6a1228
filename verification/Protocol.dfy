/** The delivery protocol as one transition system: the database, an unreliable broker, the Worker
    handlers that hold unacknowledged messages, the Publisher cycles, and the clock.  One committed
    statement is one step; `Process`, `processMessage` and `RunOnce` are sequences of steps that
    any other step may fall between, and that may end in a crash after any of them. */
module Protocol {
  import opened Model
  import opened Statements

  datatype Config = Config(
    backlogLimit: nat,
    workerLease: Time,
    outboxLease: Time,
    watchdog: Time)

  predicate ValidConfig(cfg: Config) {
    cfg.backlogLimit > 0 && cfg.workerLease > 0 && cfg.outboxLease > 0 && cfg.watchdog > 0
  }

  /** Where `processMessage` stands with one unacknowledged message. */
  datatype Phase =
    | Received                                           // before EligibleDestination
    | Checked                                            // before ObserveSignal
    | Observed                                           // before tryAcquire
    | Deferring                                          // no capacity: before Defer
    | Permitted                                          // before ClaimDelivery
    | Sending                                            // claimed, Send running
    | Completing(result: AttemptResult, outcome: Outcome)  // before the Complete* call
    | Finished                                           // about to ACK, nothing put in its place
    | Replaced                                           // about to ACK, replacement confirmed
    | Failed                                             // about to NACK with requeue

  datatype Task = Task(signal: Signal, phase: Phase)

  datatype Stage = Publishing | Marking | Releasing

  /** One `RunOnce`: the claimed batch, the index reached, and what is being done there. */
  datatype Cycle = Cycle(owner: string, token: Token, keys: seq<Signal>, next: nat, stage: Stage)

  /** A committed claim of a signal and the deadline that Process carries with it. */
  datatype Claim = Claim(holder: nat, lease: Lease, at: Time, deadline: Time)

  /** History of one delivery id, kept after the row is deleted. */
  datatype Log = Log(
    sends: nat,              // sends begun
    resets: nat,             // watchdog resets in the current retry cycle
    late: nat,               // those of them that ended at or after the retry deadline
    resetStatement: Time,    // statement and clock reading of the last of them
    resetClock: Time)

  datatype System = System(
    cfg: Config,
    now: Time,
    db: Database,
    ready: multiset<Signal>,
    deferred: multiset<Signal>,
    tasks: map<nat, Task>,
    cycles: map<nat, Cycle>,
    logs: map<Id, Log>,
    claims: map<Signal, Claim>,
    ended: map<Signal, Time>,
    replays: nat,
    lost: bool)

  function Init(cfg: Config, now: Time): System {
    System(cfg, now, map[], multiset{}, multiset{}, map[], map[], map[], map[], map[], 0, false)
  }

  /** How a store call ends: normally, with an error and no commit, or with an error although the
      transaction committed. */
  datatype Fate = Returns | FailsBefore | FailsAfter

  datatype ApiStep =
    | Submit(id: Id, request: Request, acceptedAt: Time, at: Time)
    | Replay(replayed: Id, operator: string, reason: string, replayedAt: Time, at: Time)

  datatype PublisherStep =
    | ClaimBatch(owner: string, token: Token, keys: seq<Signal>, at: Time)
    | Publish(confirmed: bool, enqueued: bool)
    | Mark(fate: Fate, at: Time)
    | Release(fate: Fate)
    | EndCycle

  datatype WorkerStep =
    | Deliver(signal: Signal)
    | Check(fate: Fate, at: Time)
    | NoteObserved(fate: Fate, at: Time)
    | Acquire(granted: bool)
    | Defer(confirmed: bool, enqueued: bool)
    | ClaimRow(owner: string, token: Token, fate: Fate, at: Time)
    | SendReturns(outcome: Outcome, category: string, startedAt: Time, finishedAt: Time, at: Time)
    | CompleteRow(fate: Fate, at: Time)
    | Ack
    | Nack
    | Crash(at: Time)

  datatype BrokerStep =
    | Expire(signal: Signal)       // the deferral TTL dead-letters the message back to the queue
    | Duplicate(signal: Signal)
    | Lose(signal: Signal)

  datatype MaintenanceStep =
    | Tick(at: Time)
    | ScheduleRetries(due: set<Id>, statement: Time, clock: Time)
    | RecoverLeases(picked: set<Id>, statement: Time, clock: Time, finished: Time)
    | ReconcileSignals(picked: set<Id>, statement: Time, clock: Time)
    | DeleteTerminal(picked: set<Id>, successRetention: Time, failureRetention: Time, at: Time)

  datatype Step =
    | Api(api: ApiStep)
    | Publisher(cycle: nat, publisher: PublisherStep)
    | Worker(task: nat, worker: WorkerStep)
    | Broker(broker: BrokerStep)
    | Maintenance(maintenance: MaintenanceStep)

  function LogOf(s: System, id: Id): Log {
    if id in s.logs then s.logs[id] else Log(0, 0, 0, s.now, s.now)
  }

  // ----- API

  predicate ApiEnabled(s: System, step: ApiStep) {
    && s.now <= step.at
    && match step
       case Submit(id, _, _, _) => id !in s.logs      // UUIDs are never handed out twice
       case Replay(_, _, _, replayedAt, at) => replayedAt <= at
  }

  predicate Admits(s: System, request: Request) {
    Holders(s.db, request) == {} && |ActiveIds(s.db)| < s.cfg.backlogLimit
  }

  function ApiNext(s: System, step: ApiStep): System {
    match step
    case Submit(id, request, acceptedAt, at) =>
      var admitted := Admits(s, request);
      s.(now := at,
         db := if admitted then s.db[id := FreshRecord(request, acceptedAt, acceptedAt + DAY, at)] else s.db,
         logs := if admitted then s.logs[id := Log(0, 0, 0, at, at)] else s.logs)
    case Replay(id, operator, reason, replayedAt, at) =>
      var replayed := Replayable(s.db, id);
      s.(now := at,
         db := if replayed then s.db[id := ReplayRecord(s.db[id], operator, reason, replayedAt)] else s.db,
         logs := if replayed then s.logs[id := LogOf(s, id).(resets := 0, late := 0)] else s.logs,
         replays := if replayed then s.replays + 1 else s.replays)
  }

  // ----- Publisher

  predicate Distinct(keys: seq<Signal>) {
    forall i, j :: 0 <= i < j < |keys| ==> keys[i] != keys[j]
  }

  predicate PublisherEnabled(s: System, c: nat, step: PublisherStep) {
    match step
    case ClaimBatch(_, _, keys, at) =>
      && c !in s.cycles
      && s.now <= at
      && Distinct(keys)
      && forall k | k in keys :: Publishable(s.db, k, at)
    case Publish(confirmed, enqueued) =>
      && c in s.cycles
      && s.cycles[c].stage == Publishing
      && s.cycles[c].next < |s.cycles[c].keys|
      && (confirmed ==> enqueued)
    case Mark(_, at) =>
      && c in s.cycles
      && s.cycles[c].stage == Marking
      && s.cycles[c].next < |s.cycles[c].keys|
      && s.now <= at
    case Release(_) =>
      && c in s.cycles
      && s.cycles[c].stage == Releasing
      && s.cycles[c].next < |s.cycles[c].keys|
    case EndCycle => c in s.cycles
  }

  function PublisherNext(s: System, c: nat, step: PublisherStep): System
    requires PublisherEnabled(s, c, step)
  {
    match step
    case ClaimBatch(owner, token, keys, at) =>
      s.(now := at,
         db := ClaimOutbox(s.db, (set k | k in keys), Lease(owner, token, at + s.cfg.outboxLease)),
         cycles := s.cycles[c := Cycle(owner, token, keys, 0, Publishing)])
    case Publish(confirmed, enqueued) =>
      var cycle := s.cycles[c];
      s.(ready := if enqueued then s.ready + multiset{cycle.keys[cycle.next]} else s.ready,
         cycles := s.cycles[c := cycle.(stage := if confirmed then Marking else Releasing)])
    case Mark(fate, at) =>
      var cycle := s.cycles[c];
      var key := cycle.keys[cycle.next];
      var succeeds := fate.Returns? && Markable(s.db, key, cycle.owner, cycle.token, at);
      s.(now := at,
         db := if fate.FailsBefore? then s.db else MarkPublished(s.db, key, cycle.owner, cycle.token, at),
         cycles := s.cycles[c := if succeeds
                                 then cycle.(stage := Publishing, next := cycle.next + 1)
                                 else cycle.(stage := Releasing)])
    case Release(fate) =>
      var cycle := s.cycles[c];
      s.(db := if fate.FailsBefore? then s.db
               else ReleaseOutbox(s.db, cycle.keys[cycle.next], cycle.owner, cycle.token),
         cycles := s.cycles[c := cycle.(next := cycle.next + 1)])
    case EndCycle =>
      s.(cycles := s.cycles - {c})
  }

  // ----- Worker

  predicate WorkerEnabled(s: System, t: nat, step: WorkerStep) {
    match step
    case Deliver(signal) => t !in s.tasks && signal in s.ready
    case Check(_, at) => t in s.tasks && s.tasks[t].phase.Received? && s.now <= at
    case NoteObserved(_, at) => t in s.tasks && s.tasks[t].phase.Checked? && s.now <= at
    case Acquire(_) => t in s.tasks && s.tasks[t].phase.Observed?
    case Defer(confirmed, enqueued) =>
      t in s.tasks && s.tasks[t].phase.Deferring? && (confirmed ==> enqueued)
    case ClaimRow(_, _, _, at) => t in s.tasks && s.tasks[t].phase.Permitted? && s.now <= at
    case SendReturns(outcome, _, _, _, at) =>
      && t in s.tasks
      && s.tasks[t].phase.Sending?
      && s.now <= at
      && s.tasks[t].signal in s.claims
      && (outcome.Retry? ==> outcome.nextAttemptAt < s.claims[s.tasks[t].signal].deadline)
    case CompleteRow(_, at) => t in s.tasks && s.tasks[t].phase.Completing? && s.now <= at
    case Ack => t in s.tasks && (s.tasks[t].phase.Finished? || s.tasks[t].phase.Replaced?)
    case Nack => t in s.tasks && s.tasks[t].phase.Failed?
    case Crash(at) => t in s.tasks && s.now <= at
  }

  function Moved(s: System, t: nat, phase: Phase): map<nat, Task>
    requires t in s.tasks
  {
    s.tasks[t := s.tasks[t].(phase := phase)]
  }

  function ClaimNext(s: System, t: nat, lease: Lease, fate: Fate, at: Time): System
    requires t in s.tasks
  {
    var signal := s.tasks[t].signal;
    var claimable := Claimable(s.db, signal, at);
    var commits := claimable && !fate.FailsBefore?;
    var sends := claimable && fate.Returns?;
    s.(now := at,
       db := if commits then ClaimDelivery(s.db, signal, lease, at) else s.db,
       claims := if commits
                 then s.claims[signal := Claim(t, lease, at, s.db[signal.id].row.retryDeadline)]
                 else s.claims,
       logs := if sends
               then s.logs[signal.id := LogOf(s, signal.id).(sends := LogOf(s, signal.id).sends + 1)]
               else s.logs,
       tasks := Moved(s, t, if !fate.Returns? then Failed else if claimable then Sending else Finished))
  }

  function CompleteNext(s: System, t: nat, fate: Fate, at: Time): System
    requires t in s.tasks && s.tasks[t].phase.Completing?
  {
    var result := s.tasks[t].phase.result;
    var outcome := s.tasks[t].phase.outcome;
    var rejected := Completes(s.db, result, outcome, at) && !Commits(s.db, result, outcome, at);
    s.(now := at,
       db := if fate.FailsBefore? then s.db else Complete(s.db, result, outcome, at),
       tasks := Moved(s, t, if fate.Returns? && !rejected then Finished else Failed))
  }

  function WorkerNext(s: System, t: nat, step: WorkerStep): System
    requires WorkerEnabled(s, t, step)
  {
    match step
    case Deliver(signal) =>
      s.(ready := s.ready - multiset{signal}, tasks := s.tasks[t := Task(signal, Received)])
    case Check(fate, at) =>
      s.(now := at,
         tasks := Moved(s, t, if !fate.Returns? then Failed
                              else if Claimable(s.db, s.tasks[t].signal, at) then Checked
                              else Finished))
    case NoteObserved(fate, at) =>
      s.(now := at,
         db := if fate.FailsBefore? then s.db else Observe(s.db, s.tasks[t].signal, at),
         tasks := Moved(s, t, if fate.Returns? then Observed else Failed))
    case Acquire(granted) =>
      s.(tasks := Moved(s, t, if granted then Permitted else Deferring))
    case Defer(confirmed, enqueued) =>
      s.(deferred := if enqueued then s.deferred + multiset{s.tasks[t].signal} else s.deferred,
         tasks := Moved(s, t, if confirmed then Replaced else Failed))
    case ClaimRow(owner, token, fate, at) =>
      ClaimNext(s, t, Lease(owner, token, at + s.cfg.workerLease), fate, at)
    case SendReturns(outcome, category, startedAt, finishedAt, at) =>
      var signal := s.tasks[t].signal;
      var lease := s.claims[signal].lease;
      s.(now := at,
         ended := s.ended[signal := at],
         tasks := Moved(s, t, Completing(AttemptResult(signal, lease.owner, lease.token, category,
                                                       startedAt, finishedAt), outcome)))
    case CompleteRow(fate, at) => CompleteNext(s, t, fate, at)
    case Ack => s.(tasks := s.tasks - {t})
    case Nack => s.(ready := s.ready + multiset{s.tasks[t].signal}, tasks := s.tasks - {t})
    case Crash(at) =>
      var signal := s.tasks[t].signal;
      s.(now := at,
         ready := s.ready + multiset{signal},
         ended := if s.tasks[t].phase.Sending? then s.ended[signal := at] else s.ended,
         tasks := s.tasks - {t})
  }

  // ----- Broker

  predicate Present(s: System, signal: Signal) {
    || signal in s.ready
    || signal in s.deferred
    || exists t :: t in s.tasks && s.tasks[t].signal == signal
  }

  predicate BrokerEnabled(s: System, step: BrokerStep) {
    match step
    case Expire(signal) => signal in s.deferred
    case Duplicate(signal) => Present(s, signal)
    case Lose(signal) => signal in s.ready || signal in s.deferred
  }

  function BrokerNext(s: System, step: BrokerStep): System
    requires BrokerEnabled(s, step)
  {
    var copy := multiset{step.signal};
    s.(ready := if step.Lose? then s.ready - copy else s.ready + copy,
       deferred := if step.Expire? || (step.Lose? && step.signal !in s.ready) then s.deferred - copy else s.deferred,
       lost := s.lost || step.Lose?)
  }

  // ----- Maintenance

  /** A statement may have started before other commits that its rows are read after. */
  predicate MaintenanceEnabled(s: System, step: MaintenanceStep) {
    match step
    case Tick(at) => s.now <= at
    case ScheduleRetries(due, statement, clock) =>
      s.now <= clock && statement <= clock && due <= NeedsEventIds(s.db, statement, clock)
    case RecoverLeases(picked, statement, clock, finished) =>
      s.now <= clock && statement <= clock <= finished && picked <= LeaseExpiredIds(s.db, statement)
    case ReconcileSignals(picked, statement, clock) =>
      s.now <= clock && statement <= clock && picked <= StalledIds(s.db, s.cfg.watchdog, statement, clock)
    case DeleteTerminal(picked, successRetention, failureRetention, at) =>
      && s.now <= at
      && successRetention > 0
      && failureRetention > 0
      && picked <= RetiredIds(s.db, successRetention, failureRetention, at)
  }

  function CountReset(log: Log, deadline: Time, statement: Time, clock: Time): Log {
    log.(resets := log.resets + 1,
         late := log.late + if deadline <= clock then 1 else 0,
         resetStatement := statement,
         resetClock := clock)
  }

  function MaintenanceNext(s: System, step: MaintenanceStep): System
    requires MaintenanceEnabled(s, step)
  {
    match step
    case Tick(at) => s.(now := at)
    case ScheduleRetries(due, statement, clock) =>
      s.(now := clock, db := Schedule(s.db, due, statement, clock))
    case RecoverLeases(picked, statement, clock, finished) =>
      s.(now := finished, db := Recover(s.db, picked, statement, clock, finished))
    case ReconcileSignals(picked, statement, clock) =>
      s.(now := clock,
         db := Reconcile(s.db, picked, s.cfg.watchdog, statement, clock),
         logs := map id | id in s.logs ::
                   if id in picked then CountReset(s.logs[id], s.db[id].row.retryDeadline, statement, clock)
                   else s.logs[id])
    case DeleteTerminal(picked, _, _, at) =>
      s.(now := at, db := Delete(s.db, picked))
  }

  // ----- Runs

  predicate Enabled(s: System, step: Step) {
    match step
    case Api(api) => ApiEnabled(s, api)
    case Publisher(c, publisher) => PublisherEnabled(s, c, publisher)
    case Worker(t, worker) => WorkerEnabled(s, t, worker)
    case Broker(broker) => BrokerEnabled(s, broker)
    case Maintenance(maintenance) => MaintenanceEnabled(s, maintenance)
  }

  function Next(s: System, step: Step): System
    requires Enabled(s, step)
  {
    match step
    case Api(api) => ApiNext(s, api)
    case Publisher(c, publisher) => PublisherNext(s, c, publisher)
    case Worker(t, worker) => WorkerNext(s, t, worker)
    case Broker(broker) => BrokerNext(s, broker)
    case Maintenance(maintenance) => MaintenanceNext(s, maintenance)
  }

  /** Every step of `steps` can be taken, one after the other, starting in `s`. */
  predicate ValidRun(s: System, steps: seq<Step>)
    decreases |steps|
  {
    steps != [] ==> Enabled(s, steps[0]) && ValidRun(Next(s, steps[0]), steps[1..])
  }

  function Run(s: System, steps: seq<Step>): System
    requires ValidRun(s, steps)
    decreases |steps|
  {
    if steps == [] then s else Run(Next(s, steps[0]), steps[1..])
  }

  ghost predicate Reachable(s: System) {
    exists cfg, start, steps: seq<Step> ::
      && ValidConfig(cfg)
      && ValidRun(Init(cfg, start), steps)
      && s == Run(Init(cfg, start), steps)
  }
}
