/** Which numbers of watchdog resets occur in one retry cycle.  A reset is late if it ends after the
    retry deadline, which takes a statement that started before it.  Resets and late resets occur in
    exactly the numbers for which the others fit into 24 hours; and since at most one is late unless
    maintenance statements overlap, n resets then occur if and only if n - 1 intervals fit.  The runs
    that show it lose every message and republish the one event each time the watchdog resets it. */
module Watchdog {
  import opened Model
  import opened Statements
  import opened Protocol
  import opened Records
  import opened Invariant
  import opened Preservation
  import opened Runs
  import opened Guarantees

  const REQUEST: Request := Request("caller", "key", [], "destination", 1)

  const SIGNAL: Signal := Signal(0, 0)

  const MINUTE: Time := 60_000_000

  datatype Count = Count(resets: nat, late: nat)

  function Counted(log: Log): Count {
    Count(log.resets, log.late)
  }

  /** Delivery 0, accepted at 0 and never attempted, with its one event. */
  function Waiting(e: Event): Database {
    map[0 := FreshRecord(REQUEST, 0, DAY, 0).(events := map[0 := e])]
  }

  /** The delivery waits, no Publisher is at work, and the clock shows `at`. */
  predicate Quiet(s: System, cfg: Config, at: Time, count: Count, e: Event) {
    && s.cfg == cfg && s.now == at && s.cycles == map[]
    && s.db == Waiting(e)
    && 0 in s.logs && Counted(s.logs[0]) == count
  }

  predicate Unpublished(s: System, cfg: Config, at: Time, count: Count) {
    Quiet(s, cfg, at, count, Event(at, None, None, None))
  }

  predicate Published(s: System, cfg: Config, at: Time, count: Count) {
    Quiet(s, cfg, at, count, Event(at, Some(at), None, None))
  }

  // ----- One round: publish, then reset

  function Working(next: nat, stage: Stage): map<nat, Cycle> {
    map[0 := Cycle("publisher", 0, [SIGNAL], next, stage)]
  }

  /** Between Claim and the end of the cycle. */
  predicate Busy(s: System, cfg: Config, at: Time, count: Count, e: Event, next: nat, stage: Stage) {
    && s.cfg == cfg && s.now == at && s.cycles == Working(next, stage)
    && s.db == Waiting(e)
    && 0 in s.logs && Counted(s.logs[0]) == count
  }

  function LeasedEvent(cfg: Config, at: Time): Event {
    Event(at, None, None, Some(Lease("publisher", 0, at + cfg.outboxLease)))
  }

  lemma LeaseIs(at: Time, lease: Lease)
    ensures ClaimOutbox(Waiting(Event(at, None, None, None)), {SIGNAL}, lease) == Waiting(Event(at, None, None, Some(lease)))
  {
    var db := ClaimOutbox(Waiting(Event(at, None, None, None)), {SIGNAL}, lease);
    assert db[0].events == map[0 := Event(at, None, None, Some(lease))];
  }

  function Claiming(at: Time): PublisherStep {
    ClaimBatch("publisher", 0, [SIGNAL], at)
  }

  lemma ClaimEnabled(s: System, cfg: Config, at: Time, count: Count)
    requires Unpublished(s, cfg, at, count)
    ensures PublisherEnabled(s, 0, Claiming(at))
  {
    assert Publishable(s.db, SIGNAL, at);
  }

  lemma ClaimIs(s: System, cfg: Config, at: Time, count: Count)
    requires Unpublished(s, cfg, at, count) && PublisherEnabled(s, 0, Claiming(at))
    ensures Busy(PublisherNext(s, 0, Claiming(at)), cfg, at, count, LeasedEvent(cfg, at), 0, Publishing)
  {
    assert (set k | k in [SIGNAL]) == {SIGNAL};
    LeaseIs(at, Lease("publisher", 0, at + cfg.outboxLease));
  }

  lemma ClaimReached(s: System, cfg: Config, at: Time, count: Count, serial: bool) returns (s': System)
    requires Reaches(s, serial) && Unpublished(s, cfg, at, count)
    ensures Reaches(s', serial) && Busy(s', cfg, at, count, LeasedEvent(cfg, at), 0, Publishing)
  {
    ClaimEnabled(s, cfg, at, count);
    ClaimIs(s, cfg, at, count);
    ReachesNext(s, Publisher(0, Claiming(at)), serial);
    s' := PublisherNext(s, 0, Claiming(at));
  }

  lemma SendReached(s: System, cfg: Config, at: Time, count: Count, serial: bool) returns (s': System)
    requires Reaches(s, serial) && Busy(s, cfg, at, count, LeasedEvent(cfg, at), 0, Publishing)
    ensures Reaches(s', serial) && Busy(s', cfg, at, count, LeasedEvent(cfg, at), 0, Marking)
  {
    ReachesNext(s, Publisher(0, Publish(true, true)), serial);
    s' := PublisherNext(s, 0, Publish(true, true));
    assert s'.cycles == Working(0, Marking);
  }

  lemma MarkReached(s: System, cfg: Config, at: Time, count: Count, serial: bool) returns (s': System)
    requires ValidConfig(cfg) && Reaches(s, serial) && Busy(s, cfg, at, count, LeasedEvent(cfg, at), 0, Marking)
    ensures Reaches(s', serial) && Busy(s', cfg, at, count, Event(at, Some(at), None, None), 1, Publishing)
  {
    ReachesNext(s, Publisher(0, Mark(Returns, at)), serial);
    s' := PublisherNext(s, 0, Mark(Returns, at));
    assert s'.db[0].events == map[0 := Event(at, Some(at), None, None)];
    assert s'.db == Waiting(Event(at, Some(at), None, None));
    assert s'.cycles == Working(1, Publishing);
  }

  lemma PublishReached(s: System, cfg: Config, at: Time, count: Count, serial: bool) returns (s': System)
    requires ValidConfig(cfg) && Reaches(s, serial) && Unpublished(s, cfg, at, count)
    ensures Reaches(s', serial) && Published(s', cfg, at, count)
  {
    var claimed := ClaimReached(s, cfg, at, count, serial);
    var sent := SendReached(claimed, cfg, at, count, serial);
    var marked := MarkReached(sent, cfg, at, count, serial);
    ReachesNext(marked, Publisher(0, EndCycle), serial);
    s' := PublisherNext(marked, 0, EndCycle);
    assert s'.cycles == map[];
  }

  /** What a reset adds. */
  function OneMore(count: Count, clock: Time): Count {
    Count(count.resets + 1, count.late + if DAY <= clock then 1 else 0)
  }

  /** The statement may start at any time before the deadline and read the interval later. */
  lemma ResetReached(s: System, cfg: Config, at: Time, count: Count, statement: Time, clock: Time, serial: bool)
    returns (s': System)
    requires Reaches(s, serial) && Published(s, cfg, at, count)
    requires statement < DAY && statement <= clock && 0 <= at && at <= clock && at + cfg.watchdog <= clock
    requires serial ==> at <= statement
    ensures Reaches(s', serial) && Unpublished(s', cfg, clock, OneMore(count, clock))
  {
    var reset := Maintenance(ReconcileSignals({0}, statement, clock));
    assert Stalled(s.db[0], cfg.watchdog, statement, clock);
    assert 0 in StalledIds(s.db, cfg.watchdog, statement, clock);
    ReachesNext(s, reset, serial);
    s' := Next(s, reset);
    assert s'.db[0].events == map[0 := Event(clock, None, None, None)];
    assert s'.db == Waiting(Event(clock, None, None, None));
  }

  lemma RoundReached(s: System, cfg: Config, at: Time, count: Count, statement: Time, clock: Time, serial: bool)
    returns (s': System)
    requires ValidConfig(cfg) && Reaches(s, serial) && Unpublished(s, cfg, at, count)
    requires statement < DAY && statement <= clock && 0 <= at && at + cfg.watchdog <= clock
    requires serial ==> at <= statement
    ensures Reaches(s', serial) && Unpublished(s', cfg, clock, OneMore(count, clock))
  {
    var published := PublishReached(s, cfg, at, count, serial);
    s' := ResetReached(published, cfg, at, count, statement, clock, serial);
  }

  // ----- As many rounds as the deadline allows

  lemma SubmitReached(cfg: Config, serial: bool) returns (s: System)
    requires ValidConfig(cfg)
    ensures Reaches(s, serial) && Unpublished(s, cfg, 0, Count(0, 0))
  {
    var start := Init(cfg, 0);
    ReachesInit(cfg, 0, serial);
    var submit := Api(Submit(0, REQUEST, 0, 0));
    assert Holders(start.db, REQUEST) == {} && ActiveIds(start.db) == {};
    ReachesNext(start, submit, serial);
    s := Next(start, submit);
    assert s.db == Waiting(Event(0, None, None, None));
  }

  lemma {:induction false} RoundsReached(cfg: Config, n: nat, serial: bool) returns (s: System)
    requires ValidConfig(cfg) && Intervals(n, cfg.watchdog) < DAY
    ensures Reaches(s, serial) && Unpublished(s, cfg, Intervals(n, cfg.watchdog), Count(n, 0))
    ensures 0 <= Intervals(n, cfg.watchdog)
  {
    if n == 0 {
      s := SubmitReached(cfg, serial);
    } else {
      var at := Intervals(n - 1, cfg.watchdog);
      var before := RoundsReached(cfg, n - 1, serial);
      s := RoundReached(before, cfg, at, Count(n - 1, 0), at + cfg.watchdog, at + cfg.watchdog, serial);
    }
  }

  /** Statements that all started at the very beginning and end one by one, each after the deadline. */
  lemma {:induction false} LateRoundsReached(cfg: Config, early: nat, late: nat) returns (s: System, at: Time)
    requires ValidConfig(cfg) && Intervals(early, cfg.watchdog) < DAY
    ensures 0 <= at && Reaches(s, false) && Unpublished(s, cfg, at, Count(early + late, late))
    decreases late
  {
    if late == 0 {
      s := RoundsReached(cfg, early, false);
      at := Intervals(early, cfg.watchdog);
    } else {
      var before, then_ := LateRoundsReached(cfg, early, late - 1);
      at := Max(DAY, then_ + cfg.watchdog);
      s := RoundReached(before, cfg, then_, Count(early + late - 1, late - 1), 0, at, false);
    }
  }

  // ----- At most one late reset without overlap

  predicate LateAt(s: System, id: Id) {
    id in s.logs ==> s.logs[id].late <= 1
  }

  lemma ReconcileLate(s: System, step: MaintenanceStep, id: Id)
    requires Inv(s) && step.ReconcileSignals? && MaintenanceEnabled(s, step) && s.now <= step.statement && LateAt(s, id)
    ensures LateAt(MaintenanceNext(s, step), id)
  {
    assert RowAt(s, id);
    if id in step.picked {
      assert id in StalledIds(s.db, s.cfg.watchdog, step.statement, step.clock);
    }
  }

  lemma WorkerLate(s: System, t: nat, step: WorkerStep, id: Id)
    requires WorkerEnabled(s, t, step) && LateAt(s, id)
    ensures LateAt(WorkerNext(s, t, step), id)
  {
  }

  lemma ApiLate(s: System, step: ApiStep, id: Id)
    requires ApiEnabled(s, step) && LateAt(s, id)
    ensures LateAt(ApiNext(s, step), id)
  {
  }

  lemma BrokerLate(s: System, step: BrokerStep)
    requires BrokerEnabled(s, step)
    ensures BrokerNext(s, step).logs == s.logs
  {
  }

  lemma MaintenanceLate(s: System, step: MaintenanceStep, id: Id)
    requires Inv(s) && MaintenanceEnabled(s, step) && Serial(s, Maintenance(step)) && LateAt(s, id)
    ensures LateAt(MaintenanceNext(s, step), id)
  {
    if step.ReconcileSignals? {
      ReconcileLate(s, step, id);
    }
  }

  lemma PublisherLate(s: System, c: nat, step: PublisherStep)
    requires PublisherEnabled(s, c, step)
    ensures PublisherNext(s, c, step).logs == s.logs
  {
  }

  lemma StepLate(s: System, step: Step, id: Id)
    requires Inv(s) && Enabled(s, step) && Serial(s, step) && LateAt(s, id)
    ensures LateAt(Next(s, step), id)
  {
    match step
    case Api(api) => ApiLate(s, api, id);
    case Publisher(c, publisher) => PublisherLate(s, c, publisher);
    case Worker(t, worker) => WorkerLate(s, t, worker, id);
    case Broker(broker) => BrokerLate(s, broker);
    case Maintenance(maintenance) => MaintenanceLate(s, maintenance, id);
  }

  lemma {:induction false} RunLate(s: System, steps: seq<Step>, id: Id)
    requires Inv(s) && ValidRun(s, steps) && SerialRun(s, steps) && LateAt(s, id)
    ensures LateAt(Run(s, steps), id)
    decreases |steps|
  {
    if steps == [] {
    } else {
      StepKeeps(s, steps[0]);
      StepLate(s, steps[0], id);
      RunLate(Next(s, steps[0]), steps[1..], id);
    }
  }

  lemma SerialLate(s: System, id: Id)
    requires Reaches(s, true)
    ensures LateAt(s, id)
  {
    var cfg, start, steps: seq<Step> :|
      && ValidConfig(cfg)
      && ValidRun(Init(cfg, start), steps)
      && SerialRun(Init(cfg, start), steps)
      && s == Run(Init(cfg, start), steps);
    RunLate(Init(cfg, start), steps, id);
  }

  /** Without overlapping statements all resets but one fit into the 24 hours. */
  lemma SerialBounded(s: System, id: Id)
    requires Reaches(s, true) && id in s.db && id in s.logs && s.logs[id].resets > 0
    ensures s.logs[id].late <= 1
    ensures (s.logs[id].resets - 1) * s.cfg.watchdog < DAY
  {
    SerialLate(s, id);
    ReachesReachable(s, true);
    WatchdogBounded(s, id);
    ReachableInv(s);
    assert s.logs[id].resets * s.cfg.watchdog == (s.logs[id].resets - 1) * s.cfg.watchdog + s.cfg.watchdog;
  }

  // ----- The theorems

  /** Some state that is reached has a delivery with exactly these resets in its retry cycle. */
  ghost predicate Occurs(cfg: Config, count: Count, serial: bool) {
    exists s: System, id ::
      Reaches(s, serial) && s.cfg == cfg && id in s.db && id in s.logs && Counted(s.logs[id]) == count
  }

  /** The numbers that occur at all: any number of resets can be late, and the others fit. */
  lemma ResetsExact(cfg: Config, count: Count)
    requires ValidConfig(cfg)
    ensures Occurs(cfg, count, false) <==>
              count.late <= count.resets && (count.resets - count.late) * cfg.watchdog < DAY
  {
    if Occurs(cfg, count, false) {
      var s: System, id :|
        Reaches(s, false) && s.cfg == cfg && id in s.db && id in s.logs && Counted(s.logs[id]) == count;
      ReachesReachable(s, false);
      WatchdogBounded(s, id);
    }
    if count.late <= count.resets && (count.resets - count.late) * cfg.watchdog < DAY {
      IntervalsIsProduct(count.resets - count.late, cfg.watchdog);
      var s, at := LateRoundsReached(cfg, count.resets - count.late, count.late);
      assert Counted(s.logs[0]) == count;
    }
  }

  ghost predicate OccursSerially(cfg: Config, n: nat) {
    Occurs(cfg, Count(n, 0), true) || Occurs(cfg, Count(n, 1), true)
  }

  lemma SerialReached(cfg: Config, n: nat)
    requires ValidConfig(cfg) && n > 0 && (n - 1) * cfg.watchdog < DAY
    ensures OccursSerially(cfg, n)
  {
    IntervalsIsProduct(n - 1, cfg.watchdog);
    var at := Intervals(n - 1, cfg.watchdog);
    var before := RoundsReached(cfg, n - 1, true);
    var s := RoundReached(before, cfg, at, Count(n - 1, 0), at, at + cfg.watchdog, true);
    assert Counted(s.logs[0]) == OneMore(Count(n - 1, 0), at + cfg.watchdog);
  }

  /** Without overlapping statements, the numbers of resets that occur. */
  lemma SerialResetsExact(cfg: Config, n: nat)
    requires ValidConfig(cfg)
    ensures OccursSerially(cfg, n) <==> n == 0 || (n - 1) * cfg.watchdog < DAY
  {
    if n == 0 {
      var s := SubmitReached(cfg, true);
      assert Counted(s.logs[0]) == Count(0, 0);
    } else if OccursSerially(cfg, n) {
      var late := if Occurs(cfg, Count(n, 0), true) then 0 else 1;
      var s: System, id :|
        Reaches(s, true) && s.cfg == cfg && id in s.db && id in s.logs && Counted(s.logs[id]) == Count(n, late);
      SerialBounded(s, id);
    } else if (n - 1) * cfg.watchdog < DAY {
      SerialReached(cfg, n);
    }
  }

  /** So 24 hours is not a bound on n intervals, whatever the watchdog, even without overlap. */
  lemma DayIsExceeded(cfg: Config) returns (n: nat)
    requires ValidConfig(cfg)
    ensures OccursSerially(cfg, n) && DAY <= n * cfg.watchdog
  {
    n := (DAY + cfg.watchdog - 1) / cfg.watchdog;
    assert (n - 1) * cfg.watchdog == n * cfg.watchdog - cfg.watchdog;
    SerialResetsExact(cfg, n);
  }

  /** And with overlap there is no bound at all. */
  lemma OverlapUnbounded(cfg: Config, n: nat)
    requires ValidConfig(cfg)
    ensures Occurs(cfg, Count(n, n), false)
  {
    ResetsExact(cfg, Count(n, n));
  }

  /** With the one-minute watchdog of the service and no overlap, 1440 resets occur and 1441 do not. */
  lemma MinuteResets(cfg: Config, n: nat)
    requires ValidConfig(cfg) && cfg.watchdog == MINUTE
    ensures OccursSerially(cfg, n) <==> n <= 1440
  {
    SerialResetsExact(cfg, n);
  }
}
