/** The maintenance passes empty the system once every lease and every retry deadline has passed,
    and the two halves of the retry-scheduling statement may be read as if run one after the other. */
module Drain {
  import opened Model
  import opened Statements
  import opened Protocol
  import opened Invariant
  import opened Preservation
  import opened Runs
  import opened Transitions

  // ----- One snapshot or two statements

  function ExhaustAll(db: Database, statement: Time, clock: Time): Database {
    map id | id in db :: ExhaustRecord(db[id], statement, clock)
  }

  function AddEvents(db: Database, due: set<Id>): Database {
    map id | id in db ::
      if id in due then AddEvent(db[id], db[id].row.generation, db[id].row.nextAttemptAt) else db[id]
  }

  /** The part that fails exhausted rows and the part that inserts events see the same rows whichever
      runs first: the result equals running either one before the other, on its own snapshot. */
  lemma ScheduleSplits(db: Database, due: set<Id>, statement: Time, clock: Time)
    requires due <= NeedsEventIds(db, statement, clock)
    ensures NeedsEventIds(ExhaustAll(db, statement, clock), statement, clock) == NeedsEventIds(db, statement, clock)
    ensures Schedule(db, due, statement, clock) == AddEvents(ExhaustAll(db, statement, clock), due)
    ensures Schedule(db, due, statement, clock) == ExhaustAll(AddEvents(db, due), statement, clock)
  {
  }

  // ----- Draining

  function DeliveringIds(db: Database): set<Id> {
    set id | id in db && db[id].row.status == Delivering
  }

  predicate PastAt(db: Database, at: Time, id: Id) {
    id in db && Active(db[id].row.status) ==>
      && db[id].row.retryDeadline <= at
      && (db[id].row.status == Delivering ==> db[id].row.lease.Some? && db[id].row.lease.value.until <= at)
  }

  /** Every lease has run out and every active row is past its retry deadline. */
  ghost predicate AllPast(db: Database, at: Time) {
    forall id {:trigger PastAt(db, at, id)} :: PastAt(db, at, id)
  }

  function PendingIds(db: Database): set<Id> {
    set id | id in db && db[id].row.status == Pending
  }

  /** The step takes a new delivery or replays an old one. */
  predicate Adds(s: System, step: Step) {
    && step.Api?
    && match step.api
       case Submit(_, request, _, _) => Admits(s, request)
       case Replay(id, _, _, _, _) => Replayable(s.db, id)
  }

  predicate IsPass(step: Step) {
    step.Maintenance? && step.maintenance.RecoverLeases?
  }

  predicate IsSchedule(step: Step) {
    step.Maintenance? && step.maintenance.ScheduleRetries?
  }

  /** The step adds nothing, and is no statement that was started before `from`. */
  predicate OnlyDrains(s: System, step: Step, from: Time) {
    !Adds(s, step) && (IsPass(step) || IsSchedule(step) ==> from <= step.maintenance.statement)
  }

  predicate Draining(s: System, steps: seq<Step>, from: Time)
    requires ValidRun(s, steps)
    decreases |steps|
  {
    steps != [] ==> OnlyDrains(s, steps[0], from) && Draining(Next(s, steps[0]), steps[1..], from)
  }

  /** The state has been past everything since `from`. */
  ghost predicate Over(s: System, from: Time) {
    Reachable(s) && from <= s.now && AllPast(s.db, from)
  }

  /** With no row locked, a recovery pass takes LIMIT expired rows, or all of them if there are fewer. */
  predicate FullPass(s: System, step: Step, limit: nat) {
    && IsPass(step)
    && |step.maintenance.picked| == Min(limit, |LeaseExpiredIds(s.db, step.maintenance.statement)|)
  }

  function Passed(s: System, step: Step, limit: nat): nat {
    if FullPass(s, step, limit) then 1 else 0
  }

  function FullPasses(s: System, steps: seq<Step>, limit: nat): nat
    requires ValidRun(s, steps)
    decreases |steps|
  {
    if steps == [] then 0
    else Passed(s, steps[0], limit) + FullPasses(Next(s, steps[0]), steps[1..], limit)
  }

  predicate OnlyFullPasses(s: System, steps: seq<Step>, limit: nat)
    requires ValidRun(s, steps)
    decreases |steps|
  {
    steps != [] ==>
      && (IsPass(steps[0]) ==> FullPass(s, steps[0], limit))
      && OnlyFullPasses(Next(s, steps[0]), steps[1..], limit)
  }

  predicate Schedules(steps: seq<Step>) {
    steps != [] && (IsSchedule(steps[0]) || Schedules(steps[1..]))
  }

  // ----- One step

  /** What a step does to one row that is past its deadline and its lease: it is neither claimed nor
      completed any more, and only the passes change it. */
  predicate DrainsAt(s: System, step: Step, s': System, id: Id, from: Time) {
    && PastAt(s'.db, from, id)
    && (id in DeliveringIds(s'.db) <==> id in DeliveringIds(s.db) && !TakesLease(step, id))
    && (id in PendingIds(s'.db) ==> id in PendingIds(s.db) && !IsSchedule(step))
  }

  ghost predicate DrainsAll(s: System, step: Step, s': System, from: Time) {
    forall id {:trigger DrainsAt(s, step, s', id, from)} :: DrainsAt(s, step, s', id, from)
  }

  lemma RowStaysPast(s: System, step: Step, s': System, id: Id, from: Time)
    requires Enabled(s, step) && OnlyDrains(s, step, from) && from <= s.now && PastAt(s.db, from, id)
    requires FollowsAll(s, step, s', id) && IdAdvances(s, s', id)
    ensures PastAt(s'.db, from, id)
    ensures id in PendingIds(s'.db) ==> id in PendingIds(s.db) && !IsSchedule(step)
  {
  }

  lemma RowDrains(s: System, step: Step, s': System, id: Id, from: Time)
    requires Enabled(s, step) && OnlyDrains(s, step, from) && from <= s.now && PastAt(s.db, from, id)
    requires FollowsAll(s, step, s', id) && IdAdvances(s, s', id)
    ensures DrainsAt(s, step, s', id, from)
  {
    RowStaysPast(s, step, s', id, from);
  }

  lemma StepDrains(s: System, step: Step, s': System, from: Time)
    requires Over(s, from) && Enabled(s, step) && OnlyDrains(s, step, from) && s' == Next(s, step)
    ensures Over(s', from) && DrainsAll(s, step, s', from)
  {
    ReachableInv(s);
    StepKeeps(s, step);
    ReachableNext(s, step);
    forall id ensures DrainsAt(s, step, s', id, from) {
      assert PastAt(s.db, from, id) && IdAdvances(s, s', id);
      StatusChanges(s, step, id);
      RowDrains(s, step, s', id, from);
    }
    forall id ensures PastAt(s'.db, from, id) {
      assert DrainsAt(s, step, s', id, from);
    }
  }

  function PickedBy(step: Step): set<Id> {
    if IsPass(step) then step.maintenance.picked else {}
  }

  lemma PassPicks(s: System, step: Step, s': System, from: Time)
    requires AllPast(s.db, from) && Enabled(s, step) && OnlyDrains(s, step, from) && DrainsAll(s, step, s', from)
    ensures DeliveringIds(s'.db) == DeliveringIds(s.db) - PickedBy(step)
    ensures PickedBy(step) <= DeliveringIds(s.db)
    ensures IsPass(step) ==> LeaseExpiredIds(s.db, step.maintenance.statement) == DeliveringIds(s.db)
  {
    forall id ensures id in DeliveringIds(s'.db) <==> id in DeliveringIds(s.db) && id !in PickedBy(step) {
      assert DrainsAt(s, step, s', id, from);
    }
    if IsPass(step) {
      forall id ensures id in LeaseExpiredIds(s.db, step.maintenance.statement) <==> id in DeliveringIds(s.db) {
        assert PastAt(s.db, from, id);
      }
    }
  }

  lemma RemovedCard(all: set<Id>, some: set<Id>)
    requires some <= all
    ensures |all - some| == |all| - |some|
  {
    assert all == (all - some) + some;
  }

  /** A full pass takes LIMIT of the delivering rows, or all. */
  lemma PassDrains(s: System, step: Step, s': System, limit: nat, from: Time)
    requires AllPast(s.db, from) && Enabled(s, step) && OnlyDrains(s, step, from) && DrainsAll(s, step, s', from)
    ensures |DeliveringIds(s'.db)| == |DeliveringIds(s.db)| - |PickedBy(step)|
    ensures FullPass(s, step, limit) ==> |DeliveringIds(s'.db)| == Max(0, |DeliveringIds(s.db)| - limit)
  {
    PassPicks(s, step, s', from);
    RemovedCard(DeliveringIds(s.db), PickedBy(step));
  }

  lemma WaitingDrains(s: System, step: Step, s': System, from: Time)
    requires DrainsAll(s, step, s', from)
    ensures PendingIds(s'.db) <= PendingIds(s.db)
    ensures IsSchedule(step) ==> PendingIds(s'.db) == {}
  {
    forall id | id in PendingIds(s'.db) ensures id in PendingIds(s.db) && !IsSchedule(step) {
      assert DrainsAt(s, step, s', id, from);
    }
  }

  // ----- Whole runs

  /** How many rows are being delivered. */
  function Busy(s: System): nat {
    |DeliveringIds(s.db)|
  }

  /** What n full passes leave of k rows. */
  function Left(k: nat, n: nat, limit: nat): nat
    decreases n
  {
    if n == 0 then k else Left(Max(0, k - limit), n - 1, limit)
  }

  lemma {:induction false} LeftGrows(k1: nat, k: nat, n: nat, limit: nat)
    requires k1 <= k
    ensures Left(k1, n, limit) <= Left(k, n, limit)
    decreases n
  {
    if n == 0 {
    } else {
      LeftGrows(Max(0, k1 - limit), Max(0, k - limit), n - 1, limit);
    }
  }

  lemma {:induction false} LeftIs(k: nat, n: nat, limit: nat)
    ensures Left(k, n, limit) == Max(0, k - n * limit)
    decreases n
  {
    if n == 0 {
    } else {
      LeftIs(Max(0, k - limit), n - 1, limit);
      assert n * limit == (n - 1) * limit + limit;
    }
  }

  lemma {:induction false} LeftTwice(k: nat, m: nat, n: nat, limit: nat)
    ensures Left(Left(k, m, limit), n, limit) == Left(k, m + n, limit)
    decreases m
  {
    if m == 0 {
    } else {
      LeftTwice(Max(0, k - limit), m - 1, n, limit);
    }
  }

  lemma LeftChains(k: nat, k1: nat, k2: nat, m: nat, n: nat, limit: nat)
    requires k1 <= Left(k, m, limit) && k2 <= Left(k1, n, limit)
    ensures k2 <= Left(k, m + n, limit)
  {
    LeftGrows(k1, Left(k, m, limit), n, limit);
    LeftTwice(k, m, n, limit);
  }

  lemma StepCounts(s: System, step: Step, s': System, limit: nat, from: Time)
    requires Over(s, from) && Enabled(s, step) && OnlyDrains(s, step, from) && s' == Next(s, step)
    ensures Over(s', from)
    ensures Busy(s') <= Left(Busy(s), Passed(s, step, limit), limit)
    ensures (IsPass(step) ==> FullPass(s, step, limit)) ==> Busy(s') == Left(Busy(s), Passed(s, step, limit), limit)
  {
    StepDrains(s, step, s', from);
    PassDrains(s, step, s', limit, from);
  }

  /** The first step of a draining run. */
  lemma FirstStep(s: System, steps: seq<Step>, s1: System, limit: nat, from: Time)
    requires Over(s, from) && ValidRun(s, steps) && Draining(s, steps, from)
    requires steps != [] && s1 == Next(s, steps[0])
    ensures Over(s1, from) && ValidRun(s1, steps[1..]) && Draining(s1, steps[1..], from)
    ensures Run(s, steps) == Run(s1, steps[1..])
    ensures FullPasses(s, steps, limit) == Passed(s, steps[0], limit) + FullPasses(s1, steps[1..], limit)
    ensures Busy(s1) <= Left(Busy(s), Passed(s, steps[0], limit), limit)
    ensures OnlyFullPasses(s, steps, limit) ==>
              && OnlyFullPasses(s1, steps[1..], limit)
              && Busy(s1) == Left(Busy(s), Passed(s, steps[0], limit), limit)
  {
    StepCounts(s, steps[0], s1, limit, from);
  }

  lemma {:induction false} PassesLeaveAtMost(s: System, steps: seq<Step>, limit: nat, from: Time)
    requires Over(s, from) && ValidRun(s, steps) && Draining(s, steps, from)
    ensures Busy(Run(s, steps)) <= Left(Busy(s), FullPasses(s, steps, limit), limit)
    decreases |steps|
  {
    if steps == [] {
    } else {
      var s1 := Next(s, steps[0]);
      FirstStep(s, steps, s1, limit, from);
      PassesLeaveAtMost(s1, steps[1..], limit, from);
      LeftChains(Busy(s), Busy(s1), Busy(Run(s, steps)),
                 Passed(s, steps[0], limit), FullPasses(s1, steps[1..], limit), limit);
    }
  }

  lemma {:induction false} PassesLeaveExactly(s: System, steps: seq<Step>, limit: nat, from: Time)
    requires Over(s, from) && ValidRun(s, steps) && Draining(s, steps, from) && OnlyFullPasses(s, steps, limit)
    ensures Busy(Run(s, steps)) == Left(Busy(s), FullPasses(s, steps, limit), limit)
    decreases |steps|
  {
    if steps == [] {
    } else {
      var s1 := Next(s, steps[0]);
      FirstStep(s, steps, s1, limit, from);
      PassesLeaveExactly(s1, steps[1..], limit, from);
      LeftTwice(Busy(s), Passed(s, steps[0], limit), FullPasses(s1, steps[1..], limit), limit);
    }
  }

  /** Whatever else happens in between, j full passes leave at most the rows that j * limit could not
      cover, and exactly those if there are no other passes. */
  lemma PassesDrain(s: System, steps: seq<Step>, limit: nat, from: Time)
    requires Over(s, from) && ValidRun(s, steps) && Draining(s, steps, from)
    ensures Busy(Run(s, steps)) <= Max(0, Busy(s) - FullPasses(s, steps, limit) * limit)
    ensures OnlyFullPasses(s, steps, limit) ==>
              Busy(Run(s, steps)) == Max(0, Busy(s) - FullPasses(s, steps, limit) * limit)
  {
    var k, n := Busy(s), FullPasses(s, steps, limit);
    assert Busy(Run(s, steps)) <= Left(k, n, limit) by {
      PassesLeaveAtMost(s, steps, limit, from);
    }
    assert OnlyFullPasses(s, steps, limit) ==> Busy(Run(s, steps)) == Left(k, n, limit) by {
      if OnlyFullPasses(s, steps, limit) {
        PassesLeaveExactly(s, steps, limit, from);
      }
    }
    assert Left(k, n, limit) == Max(0, k - n * limit) by {
      LeftIs(k, n, limit);
    }
  }

  /** One scheduling pass anywhere in the run ends every waiting row for good. */
  lemma {:induction false} ScheduleDrains(s: System, steps: seq<Step>, from: Time)
    requires Over(s, from) && ValidRun(s, steps) && Draining(s, steps, from)
    ensures PendingIds(Run(s, steps).db) <= PendingIds(s.db)
    ensures Schedules(steps) ==> PendingIds(Run(s, steps).db) == {}
    decreases |steps|
  {
    if steps == [] {
    } else {
      var s1 := Next(s, steps[0]);
      StepDrains(s, steps[0], s1, from);
      WaitingDrains(s, steps[0], s1, from);
      ScheduleDrains(s1, steps[1..], from);
    }
  }

  lemma NothingActive(s: System)
    ensures ActiveIds(s.db) == {} <==> PendingIds(s.db) == {} && Busy(s) == 0
  {
    assert ActiveIds(s.db) == PendingIds(s.db) + DeliveringIds(s.db);
  }

  /** Once every lease and deadline has passed, every run that adds nothing, schedules once and has
      ceil(k / limit) full recovery passes over its k delivering rows leaves nothing active, in
      whatever order and whatever else interleaves; fewer passes are not enough. */
  lemma Drains(s: System, steps: seq<Step>, limit: nat, from: Time)
    requires Over(s, from) && ValidRun(s, steps) && Draining(s, steps, from) && Schedules(steps)
    ensures Busy(s) <= FullPasses(s, steps, limit) * limit ==> ActiveIds(Run(s, steps).db) == {}
    ensures OnlyFullPasses(s, steps, limit) && ActiveIds(Run(s, steps).db) == {} ==>
              Busy(s) <= FullPasses(s, steps, limit) * limit
  {
    PassesDrain(s, steps, limit, from);
    ScheduleDrains(s, steps, from);
    NothingActive(Run(s, steps));
  }

  /** The hypothesis holds of every reachable state once the clock is far enough. */
  lemma ReachablePast(s: System, at: Time)
    requires Reachable(s)
    requires forall id | id in s.db && Active(s.db[id].row.status) :: s.db[id].row.retryDeadline <= at
    requires forall id | id in s.db && s.db[id].row.lease.Some? :: s.db[id].row.lease.value.until <= at
    ensures AllPast(s.db, at)
  {
    ReachableInv(s);
    forall id | id in s.db ensures RowAt(s, id) {
    }
  }
}
