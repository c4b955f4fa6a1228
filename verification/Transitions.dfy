/** Every change of a delivery's status in every run: which pairs occur, by which step exactly, and
    where the generation advances. */
module Transitions {
  import opened Model
  import opened Statements
  import opened Protocol
  import opened Invariant
  import opened Preservation
  import opened Runs
  import opened Guarantees
  import Watchdog

  // ----- The steps that change a row

  /** A Worker's result for `id` is committed. */
  predicate CommitsResult(s: System, step: Step, id: Id)
    requires Enabled(s, step)
  {
    && step.Worker? && step.worker.CompleteRow? && !step.worker.fate.FailsBefore?
    && var phase := s.tasks[step.task].phase;
       phase.result.signal.id == id && Commits(s.db, phase.result, phase.outcome, step.worker.at)
  }

  function OutcomeOf(s: System, step: Step): Outcome
    requires Enabled(s, step) && step.Worker? && step.worker.CompleteRow?
  {
    s.tasks[step.task].phase.outcome
  }

  /** Lease recovery takes the row. */
  predicate TakesLease(step: Step, id: Id) {
    step.Maintenance? && step.maintenance.RecoverLeases? && id in step.maintenance.picked
  }

  /** The retry scheduler finds the row past its deadline. */
  predicate FindsOverdue(step: Step, row: Delivery) {
    step.Maintenance? && step.maintenance.ScheduleRetries? && row.retryDeadline <= step.maintenance.statement
  }

  predicate Replays(step: Step, id: Id) {
    step.Api? && step.api.Replay? && step.api.replayed == id
  }

  // ----- The relation

  /** The pairs listed in the architecture document. */
  predicate Documented(from: Status, to: Status) {
    || (from == Pending && to == Delivering)
    || (from == Delivering && to != Delivering)
    || (from == FailedPermanent && to == Pending)
  }

  /** Each pair of different statuses happens by exactly the steps named here. */
  predicate Caused(s: System, step: Step, id: Id, from: Delivery, to: Status)
    requires Enabled(s, step)
  {
    var signal := Signal(id, from.generation);
    && (from.status == Pending ==>
          && (to == Delivering <==> CommitsClaim(s, step, signal))
          && (to == FailedPermanent <==> FindsOverdue(step, from)))
    && (from.status == Delivering ==>
          && (to == Succeeded <==> CommitsResult(s, step, id) && OutcomeOf(s, step).Success?)
          && (to == Pending <==>
                || (CommitsResult(s, step, id) && OutcomeOf(s, step).Retry?)
                || (TakesLease(step, id) && step.maintenance.statement < from.retryDeadline))
          && (to == FailedPermanent <==>
                || (CommitsResult(s, step, id) && OutcomeOf(s, step).Permanent?)
                || (TakesLease(step, id) && from.retryDeadline <= step.maintenance.statement)))
    && (from.status == FailedPermanent ==> (to == Pending <==> Replays(step, id)))
  }

  /** The generation advances by one when a row goes back to waiting, and never otherwise. */
  predicate Counts(from: Delivery, to: Delivery) {
    to.generation == from.generation + if from.status != Pending && to.status == Pending then 1 else 0
  }

  predicate Follows(s: System, step: Step, s': System, id: Id)
    requires Enabled(s, step)
  {
    id in s.db && id in s'.db ==>
      var from, to := s.db[id].row, s'.db[id].row;
      && (|| from.status == to.status
          || Documented(from.status, to.status)
          || (from.status == Pending && to.status == FailedPermanent))
      && Caused(s, step, id, from, to.status)
      && Counts(from, to)
  }

  /** Rows appear waiting in generation 0, by a submission, and go away only when terminal. */
  predicate BornAndBuried(s: System, step: Step, s': System, id: Id) {
    && (id !in s.db && id in s'.db ==>
          && step.Api? && step.api.Submit? && step.api.id == id && Admits(s, step.api.request)
          && s'.db[id].row.status == Pending && s'.db[id].row.generation == 0)
    && (id in s.db && id !in s'.db ==>
          && step.Maintenance? && step.maintenance.DeleteTerminal?
          && Terminal(s.db[id].row.status))
  }

  predicate FollowsAll(s: System, step: Step, s': System, id: Id)
    requires Enabled(s, step)
  {
    Follows(s, step, s', id) && BornAndBuried(s, step, s', id)
  }

  // ----- Step by step

  predicate SameRow(db: Database, db': Database, id: Id) {
    (id in db <==> id in db') && (id in db ==> db'[id].row == db[id].row)
  }

  /** A step that leaves the row as it is, and is none of the steps that would change it. */
  lemma KeptFollows(s: System, step: Step, s': System, id: Id)
    requires Enabled(s, step)
    requires SameRow(s.db, s'.db, id)
    requires id in s.db ==> !CommitsClaim(s, step, Signal(id, s.db[id].row.generation))
    requires !CommitsResult(s, step, id) && !TakesLease(step, id)
    requires id in s.db && s.db[id].row.status == Pending ==> !FindsOverdue(step, s.db[id].row)
    requires id in s.db && s.db[id].row.status == FailedPermanent ==> !Replays(step, id)
    ensures FollowsAll(s, step, s', id)
  {
  }

  lemma SubmitFollows(s: System, step: ApiStep, id: Id)
    requires Inv(s) && step.Submit? && ApiEnabled(s, step)
    ensures FollowsAll(s, Api(step), ApiNext(s, step), id)
  {
    assert RowAt(s, id);
    if id in s.db || id !in ApiNext(s, step).db {
      KeptFollows(s, Api(step), ApiNext(s, step), id);
    }
  }

  lemma ReplayFollows(s: System, step: ApiStep, id: Id)
    requires step.Replay? && ApiEnabled(s, step)
    ensures FollowsAll(s, Api(step), ApiNext(s, step), id)
  {
    if step.replayed != id || !Replayable(s.db, id) {
      KeptFollows(s, Api(step), ApiNext(s, step), id);
    }
  }

  lemma ApiFollows(s: System, step: ApiStep, id: Id)
    requires Inv(s) && ApiEnabled(s, step)
    ensures FollowsAll(s, Api(step), ApiNext(s, step), id)
  {
    if step.Submit? {
      SubmitFollows(s, step, id);
    } else {
      ReplayFollows(s, step, id);
    }
  }

  lemma PublisherSameRow(s: System, c: nat, step: PublisherStep, id: Id)
    requires PublisherEnabled(s, c, step)
    ensures SameRow(s.db, PublisherNext(s, c, step).db, id)
  {
  }

  lemma PublisherFollows(s: System, c: nat, step: PublisherStep, id: Id)
    requires PublisherEnabled(s, c, step)
    ensures FollowsAll(s, Publisher(c, step), PublisherNext(s, c, step), id)
  {
    PublisherSameRow(s, c, step, id);
    KeptFollows(s, Publisher(c, step), PublisherNext(s, c, step), id);
  }

  lemma WorkerSameRow(s: System, t: nat, step: WorkerStep, id: Id)
    requires WorkerEnabled(s, t, step) && !step.ClaimRow? && !step.CompleteRow?
    ensures SameRow(s.db, WorkerNext(s, t, step).db, id)
  {
  }

  lemma ClaimFollows(s: System, t: nat, step: WorkerStep, id: Id)
    requires step.ClaimRow? && WorkerEnabled(s, t, step)
    ensures FollowsAll(s, Worker(t, step), WorkerNext(s, t, step), id)
  {
    if id !in s.db || !CommitsClaim(s, Worker(t, step), Signal(id, s.db[id].row.generation)) {
      KeptFollows(s, Worker(t, step), WorkerNext(s, t, step), id);
    }
  }

  lemma ResultFollows(s: System, t: nat, step: WorkerStep, s': System, id: Id)
    requires step.CompleteRow? && WorkerEnabled(s, t, step) && CommitsResult(s, Worker(t, step), id)
    requires id in s'.db && s'.db[id].row == CompletedRow(s.db[id].row, s.tasks[t].phase.outcome, step.at)
    ensures FollowsAll(s, Worker(t, step), s', id)
  {
  }

  lemma CompleteFollows(s: System, t: nat, step: WorkerStep, id: Id)
    requires step.CompleteRow? && WorkerEnabled(s, t, step)
    ensures FollowsAll(s, Worker(t, step), WorkerNext(s, t, step), id)
  {
    if !CommitsResult(s, Worker(t, step), id) {
      KeptFollows(s, Worker(t, step), WorkerNext(s, t, step), id);
    } else {
      ResultFollows(s, t, step, WorkerNext(s, t, step), id);
    }
  }

  lemma WorkerFollows(s: System, t: nat, step: WorkerStep, id: Id)
    requires WorkerEnabled(s, t, step)
    ensures FollowsAll(s, Worker(t, step), WorkerNext(s, t, step), id)
  {
    if step.ClaimRow? {
      ClaimFollows(s, t, step, id);
    } else if step.CompleteRow? {
      CompleteFollows(s, t, step, id);
    } else {
      WorkerSameRow(s, t, step, id);
      KeptFollows(s, Worker(t, step), WorkerNext(s, t, step), id);
    }
  }

  lemma BrokerFollows(s: System, step: BrokerStep, id: Id)
    requires BrokerEnabled(s, step)
    ensures FollowsAll(s, Broker(step), BrokerNext(s, step), id)
  {
    KeptFollows(s, Broker(step), BrokerNext(s, step), id);
  }

  lemma ScheduleFollows(s: System, step: MaintenanceStep, id: Id)
    requires step.ScheduleRetries? && MaintenanceEnabled(s, step)
    ensures FollowsAll(s, Maintenance(step), MaintenanceNext(s, step), id)
  {
    if id !in s.db || s.db[id].row.status != Pending || !FindsOverdue(Maintenance(step), s.db[id].row) {
      KeptFollows(s, Maintenance(step), MaintenanceNext(s, step), id);
    }
  }

  lemma TakenFollows(s: System, step: MaintenanceStep, s': System, id: Id)
    requires step.RecoverLeases? && MaintenanceEnabled(s, step) && id in step.picked
    requires id in s.db && LeaseExpired(s.db[id], step.statement) && id in s'.db
    requires s'.db[id].row == RecoverRecord(s.db[id], step.statement, step.clock, step.finished).row
    ensures FollowsAll(s, Maintenance(step), s', id)
  {
  }

  lemma RecoverFollows(s: System, step: MaintenanceStep, id: Id)
    requires step.RecoverLeases? && MaintenanceEnabled(s, step)
    ensures FollowsAll(s, Maintenance(step), MaintenanceNext(s, step), id)
  {
    if id !in step.picked {
      KeptFollows(s, Maintenance(step), MaintenanceNext(s, step), id);
    } else {
      assert id in LeaseExpiredIds(s.db, step.statement);
      TakenFollows(s, step, MaintenanceNext(s, step), id);
    }
  }

  lemma DeleteFollows(s: System, step: MaintenanceStep, id: Id)
    requires step.DeleteTerminal? && MaintenanceEnabled(s, step)
    ensures FollowsAll(s, Maintenance(step), MaintenanceNext(s, step), id)
  {
    if id !in step.picked {
      KeptFollows(s, Maintenance(step), MaintenanceNext(s, step), id);
    } else {
      assert id in RetiredIds(s.db, step.successRetention, step.failureRetention, step.at);
    }
  }

  lemma MaintenanceFollows(s: System, step: MaintenanceStep, id: Id)
    requires MaintenanceEnabled(s, step)
    ensures FollowsAll(s, Maintenance(step), MaintenanceNext(s, step), id)
  {
    match step
    case ScheduleRetries(_, _, _) => ScheduleFollows(s, step, id);
    case RecoverLeases(_, _, _, _) => RecoverFollows(s, step, id);
    case DeleteTerminal(_, _, _, _) => DeleteFollows(s, step, id);
    case _ => KeptFollows(s, Maintenance(step), MaintenanceNext(s, step), id);
  }

  /** In every reachable state, every step that can be taken changes the status of a row along a
      documented pair, by the step that pair belongs to, or fails a waiting row permanently, which is
      done by the retry scheduler exactly when it finds the deadline passed. */
  lemma StatusChanges(s: System, step: Step, id: Id)
    requires Reachable(s) && Enabled(s, step)
    ensures FollowsAll(s, step, Next(s, step), id)
  {
    ReachableInv(s);
    match step
    case Api(api) => ApiFollows(s, api, id);
    case Publisher(c, publisher) => PublisherFollows(s, c, publisher, id);
    case Worker(t, worker) => WorkerFollows(s, t, worker, id);
    case Broker(broker) => BrokerFollows(s, broker, id);
    case Maintenance(maintenance) => MaintenanceFollows(s, maintenance, id);
  }

  /** The undocumented pair does occur: a delivery that was never attempted, a day after acceptance. */
  lemma UndocumentedOccurs(cfg: Config) returns (s: System, step: Step)
    requires ValidConfig(cfg)
    ensures Reachable(s) && Enabled(s, step) && 0 in s.db && 0 in Next(s, step).db
    ensures s.db[0].row.status == Pending && Next(s, step).db[0].row.status == FailedPermanent
    ensures !Documented(Pending, FailedPermanent)
  {
    s := Watchdog.SubmitReached(cfg, false);
    ReachesReachable(s, false);
    step := Maintenance(ScheduleRetries({}, DAY, DAY));
  }

  // ----- Over whole runs

  /** A success is never taken back: in every continuation the row is still succeeded, in the same
      generation, or it is gone for good. */
  lemma {:induction false} SuccessIsFinal(s: System, steps: seq<Step>, id: Id)
    requires Reachable(s) && ValidRun(s, steps) && id in s.logs
    requires id in s.db ==> s.db[id].row.status == Succeeded
    ensures var s' := Run(s, steps);
            id in s'.db ==>
              && id in s.db
              && s'.db[id].row.status == Succeeded
              && s'.db[id].row.generation == s.db[id].row.generation
    decreases |steps|
  {
    if steps == [] {
    } else {
      var s1 := Next(s, steps[0]);
      StatusChanges(s, steps[0], id);
      ReachableInv(s);
      StepKeeps(s, steps[0]);
      assert IdAdvances(s, s1, id);
      ReachableNext(s, steps[0]);
      SuccessIsFinal(s1, steps[1..], id);
    }
  }
}
