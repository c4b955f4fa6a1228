/** `Process` and `processMessage` are what a handler of the protocol does: whatever other steps fall
    between, a handler whose calls are answered as in a script takes steps that the protocol allows,
    and ends in the phase that belongs to the verdict of that script. */
module Refinement {
  import opened Model
  import opened Statements
  import opened Protocol
  import opened Invariant
  import opened Preservation
  import opened Runs
  import opened WorkerProcess

  /** One message's handling: the script of `Process`, the limiter's answer, the result call that
      `Process` made, and whether a deferral is confirmed. */
  datatype Handling = Handling(
    signal: Signal,
    script: Script,
    capacity: bool,
    completion: Option<Completion>,
    deferConfirmed: bool)

  /** What `DeliveryWorker.Process` ensures of its results. */
  predicate Processed(h: Handling) {
    && (h.completion.Some? <==> Sends(h.script, h.capacity))
    && (h.completion.Some? ==> Answers(h.completion.value, h.script))
  }

  function VerdictOf(h: Handling): Verdict {
    ExpectedVerdict(h.script, h.capacity)
  }

  // ----- A step of the handler and the answer it stands for

  function At(w: WorkerStep): Option<Time> {
    match w
    case Check(_, at) => Some(at)
    case NoteObserved(_, at) => Some(at)
    case ClaimRow(_, _, _, at) => Some(at)
    case SendReturns(_, _, _, _, at) => Some(at)
    case CompleteRow(_, at) => Some(at)
    case _ => None
  }

  /** The answer of a claim statement that ends with `fate` at `at`. */
  predicate ClaimAnswers(s: System, h: Handling, w: WorkerStep)
    requires w.ClaimRow?
  {
    match h.script.claim
    case StoreFails => !w.fate.Returns?
    case NotClaimable => w.fate.Returns? && !Claimable(s.db, h.signal, w.at)
    case Found(c) =>
      && w.fate.Returns? && Claimable(s.db, h.signal, w.at)
      && c.signal == h.signal
      && c.lease == Lease(w.owner, w.token, w.at + s.cfg.workerLease)
      && c.retryDeadline == s.db[h.signal.id].row.retryDeadline
  }

  predicate CommitAnswers(s: System, h: Handling, w: WorkerStep)
    requires w.CompleteRow? && h.completion.Some?
  {
    var c := h.completion.value;
    match h.script.commit
    case Committed => w.fate.Returns? && Commits(s.db, c.result, c.outcome, w.at)
    case Lost => w.fate.Returns? && !Completes(s.db, c.result, c.outcome, w.at)
    case CommitFails =>
      !w.fate.Returns? || (Completes(s.db, c.result, c.outcome, w.at) && !Commits(s.db, c.result, c.outcome, w.at))
  }

  /** In state `s`, the call behind `w` is the next one of the handler and ends as `h` says. */
  predicate Plays(s: System, phase: Phase, h: Handling, w: WorkerStep) {
    && (At(w).Some? ==> s.now <= At(w).value)
    && match phase
       case Received =>
         && w.Check?
         && (h.script.eligible.StoreFails? <==> !w.fate.Returns?)
         && (h.script.eligible.Found? ==> Claimable(s.db, h.signal, w.at))
         && (h.script.eligible.NotClaimable? ==> !Claimable(s.db, h.signal, w.at))
       case Checked => w.NoteObserved? && (h.script.observeFails <==> !w.fate.Returns?)
       case Observed => w == Acquire(h.capacity)
       case Permitted => w.ClaimRow? && ClaimAnswers(s, h, w)
       case Sending =>
         && w.SendReturns? && h.completion.Some?
         && w.outcome == h.completion.value.outcome
         && w.category == h.completion.value.result.category
         && w.startedAt == h.script.startedAt
         && w.finishedAt == h.script.finishedAt
       case Completing(_, _) => w.CompleteRow? && h.completion.Some? && CommitAnswers(s, h, w)
       case Deferring => w.Defer? && w.confirmed == h.deferConfirmed && (w.confirmed ==> w.enqueued)
       case Finished => false
       case Replaced => false
       case Failed => false
  }

  // ----- What the phase says about the script

  /** Handler `t` is as far as `h` lets it be. */
  predicate OnTrack(s: System, t: nat, h: Handling) {
    && t in s.tasks
    && s.tasks[t].signal == h.signal
    && match s.tasks[t].phase
       case Received => true
       case Checked => h.script.eligible.Found?
       case Observed => h.script.eligible.Found? && !h.script.observeFails
       case Deferring => VerdictOf(h) == NoCapacity
       case Permitted => h.script.eligible.Found? && !h.script.observeFails && h.capacity
       case Sending =>
         && Sends(h.script, h.capacity)
         && h.script.claim.value.signal == h.signal
         && h.signal in s.claims
         && s.claims[h.signal].lease == h.script.claim.value.lease
         && s.claims[h.signal].deadline == h.script.claim.value.retryDeadline
       case Completing(result, outcome) =>
         Sends(h.script, h.capacity) && h.completion == Some(Completion(result, outcome))
       case Finished => VerdictOf(h) == Acknowledge
       case Replaced => VerdictOf(h) == NoCapacity && h.deferConfirmed
       case Failed => VerdictOf(h) == Error || (VerdictOf(h) == NoCapacity && !h.deferConfirmed)
  }

  /** Calls that are still to come, at most. */
  function Rank(phase: Phase): nat {
    match phase
    case Received => 6
    case Checked => 5
    case Observed => 4
    case Permitted => 3
    case Sending => 2
    case Completing(_, _) => 1
    case Deferring => 1
    case _ => 0
  }

  lemma OwnClaim(s: System, t: nat, h: Handling, w: WorkerStep)
    requires Processed(h) && OnTrack(s, t, h) && Plays(s, s.tasks[t].phase, h, w) && w.ClaimRow?
    ensures WorkerEnabled(s, t, w) && OnTrack(WorkerNext(s, t, w), t, h)
    ensures Rank(WorkerNext(s, t, w).tasks[t].phase) < Rank(s.tasks[t].phase)
  {
  }

  lemma OwnResult(s: System, t: nat, h: Handling, w: WorkerStep)
    requires Processed(h) && OnTrack(s, t, h) && Plays(s, s.tasks[t].phase, h, w) && (w.SendReturns? || w.CompleteRow?)
    ensures WorkerEnabled(s, t, w) && OnTrack(WorkerNext(s, t, w), t, h)
    ensures Rank(WorkerNext(s, t, w).tasks[t].phase) < Rank(s.tasks[t].phase)
  {
  }

  /** Each call is one that the protocol allows the handler at this point, and moves it on. */
  lemma OwnStep(s: System, t: nat, h: Handling, w: WorkerStep)
    requires Processed(h) && OnTrack(s, t, h) && Plays(s, s.tasks[t].phase, h, w)
    ensures WorkerEnabled(s, t, w) && OnTrack(WorkerNext(s, t, w), t, h)
    ensures Rank(WorkerNext(s, t, w).tasks[t].phase) < Rank(s.tasks[t].phase)
  {
    if w.ClaimRow? {
      OwnClaim(s, t, h, w);
    } else if w.SendReturns? || w.CompleteRow? {
      OwnResult(s, t, h, w);
    }
  }

  lemma OtherHandler(s: System, t: nat, u: nat, w: WorkerStep)
    requires t in s.tasks && u != t && WorkerEnabled(s, u, w)
    ensures var s' := WorkerNext(s, u, w); t in s'.tasks && s'.tasks[t] == s.tasks[t]
  {
    match w
    case ClaimRow(_, _, _, _) =>
    case CompleteRow(_, _) =>
    case _ =>
  }

  lemma PublisherTasks(s: System, c: nat, step: PublisherStep)
    requires PublisherEnabled(s, c, step)
    ensures PublisherNext(s, c, step).tasks == s.tasks
  {
  }

  lemma MaintenanceTasks(s: System, step: MaintenanceStep)
    requires MaintenanceEnabled(s, step)
    ensures MaintenanceNext(s, step).tasks == s.tasks
  {
  }

  lemma BrokerTasks(s: System, step: BrokerStep)
    requires BrokerEnabled(s, step)
    ensures BrokerNext(s, step).tasks == s.tasks
  {
  }

  lemma OtherParty(s: System, step: Step)
    requires Enabled(s, step) && !step.Worker?
    ensures Next(s, step).tasks == s.tasks
  {
    match step
    case Api(_) =>
    case Publisher(c, publisher) => PublisherTasks(s, c, publisher);
    case Broker(broker) => BrokerTasks(s, broker);
    case Maintenance(maintenance) => MaintenanceTasks(s, maintenance);
  }

  lemma StaysOnTrack(s: System, s': System, t: nat, h: Handling)
    requires OnTrack(s, t, h) && HistoryAdvances(s, s', h.signal)
    requires t in s'.tasks && s'.tasks[t] == s.tasks[t]
    ensures OnTrack(s', t, h)
  {
  }

  predicate Own(step: Step, t: nat) {
    step.Worker? && step.task == t
  }

  lemma OtherStep(s: System, t: nat, h: Handling, step: Step)
    requires Inv(s) && OnTrack(s, t, h) && Enabled(s, step) && !Own(step, t)
    ensures OnTrack(Next(s, step), t, h)
  {
    StepKeeps(s, step);
    var s' := Next(s, step);
    assert HistoryAdvances(s, s', h.signal);
    if step.Worker? {
      OtherHandler(s, t, step.task, step.worker);
    } else {
      OtherParty(s, step);
    }
    StaysOnTrack(s, s', t, h);
  }

  // ----- Every interleaving

  /** All steps of handler `t` in the run are calls answered as `h` says. */
  predicate PlaysAll(s: System, steps: seq<Step>, t: nat, h: Handling)
    requires ValidRun(s, steps)
    decreases |steps|
  {
    steps != [] ==>
      && (Own(steps[0], t) ==> t in s.tasks && Plays(s, s.tasks[t].phase, h, steps[0].worker))
      && PlaysAll(Next(s, steps[0]), steps[1..], t, h)
  }

  lemma {:induction false} RunOnTrack(s: System, steps: seq<Step>, t: nat, h: Handling)
    requires Inv(s) && Processed(h) && OnTrack(s, t, h) && ValidRun(s, steps) && PlaysAll(s, steps, t, h)
    ensures OnTrack(Run(s, steps), t, h)
    decreases |steps|
  {
    if steps == [] {
    } else {
      StepKeeps(s, steps[0]);
      if Own(steps[0], t) {
        OwnStep(s, t, h, steps[0].worker);
      } else {
        OtherStep(s, t, h, steps[0]);
      }
      RunOnTrack(Next(s, steps[0]), steps[1..], t, h);
    }
  }

  predicate Settled(phase: Phase) {
    phase.Finished? || phase.Replaced? || phase.Failed?
  }

  /** A handler that is done is about to ACK without replacement, to ACK after a confirmed deferral or
      to NACK, exactly as the verdict of its script and the answer to the deferral say; before that,
      the result it carries is the one that `Process` made. */
  lemma HandlerRefines(s: System, steps: seq<Step>, t: nat, h: Handling)
    requires Reachable(s) && ValidRun(s, steps) && Processed(h)
    requires t in s.tasks && s.tasks[t] == Task(h.signal, Received) && PlaysAll(s, steps, t, h)
    ensures var s' := Run(s, steps);
            && t in s'.tasks && s'.tasks[t].signal == h.signal
            && var phase := s'.tasks[t].phase;
               && (phase.Deferring? ==> VerdictOf(h) == NoCapacity)
               && (phase.Completing? ==> h.completion == Some(Completion(phase.result, phase.outcome)))
               && (Settled(phase) ==>
                     && (phase.Finished? <==> VerdictOf(h) == Acknowledge)
                     && (phase.Replaced? <==> VerdictOf(h) == NoCapacity && h.deferConfirmed)
                     && (phase.Failed? <==> VerdictOf(h) == Error || (VerdictOf(h) == NoCapacity && !h.deferConfirmed)))
  {
    ReachableInv(s);
    RunOnTrack(s, steps, t, h);
  }

  // ----- Every script that the store can answer is played to its end

  function Failing(fails: bool): Fate {
    if fails then FailsBefore else Returns
  }

  /** The call that handler `t` makes next, at `at`. */
  function Call(phase: Phase, h: Handling, at: Time): WorkerStep
    requires !Settled(phase)
    requires phase.Sending? ==> h.completion.Some?
  {
    match phase
    case Received => Check(Failing(h.script.eligible.StoreFails?), at)
    case Checked => NoteObserved(Failing(h.script.observeFails), at)
    case Observed => Acquire(h.capacity)
    case Permitted =>
      (match h.script.claim
       case Found(c) => ClaimRow(c.lease.owner, c.lease.token, Returns, at)
       case NotClaimable => ClaimRow("", 0, Returns, at)
       case StoreFails => ClaimRow("", 0, FailsBefore, at))
    case Sending =>
      var c := h.completion.value;
      SendReturns(c.outcome, c.result.category, h.script.startedAt, h.script.finishedAt, at)
    case Completing(_, _) => CompleteRow(Failing(h.script.commit.CommitFails?), at)
    case Deferring => Defer(h.deferConfirmed, h.deferConfirmed)
  }

  /** In state `s` the store can give the answer that the script has for the next call. */
  predicate Answerable(s: System, phase: Phase, h: Handling, at: Time) {
    && s.now <= at
    && (phase.Received? ==>
          && (h.script.eligible.Found? ==> Claimable(s.db, h.signal, at))
          && (h.script.eligible.NotClaimable? ==> !Claimable(s.db, h.signal, at)))
    && (phase.Permitted? ==>
          match h.script.claim
          case Found(c) =>
            && Claimable(s.db, h.signal, at)
            && c.signal == h.signal
            && c.lease.until == at + s.cfg.workerLease
            && c.retryDeadline == s.db[h.signal.id].row.retryDeadline
          case NotClaimable => !Claimable(s.db, h.signal, at)
          case StoreFails => true)
    && (phase.Completing? && h.completion.Some? ==>
          var c := h.completion.value;
          && (h.script.commit.Committed? ==> Commits(s.db, c.result, c.outcome, at))
          && (h.script.commit.Lost? ==> !Completes(s.db, c.result, c.outcome, at)))
  }

  lemma CallPlays(s: System, t: nat, h: Handling, at: Time)
    requires Processed(h) && OnTrack(s, t, h) && !Settled(s.tasks[t].phase) && Answerable(s, s.tasks[t].phase, h, at)
    ensures Plays(s, s.tasks[t].phase, h, Call(s.tasks[t].phase, h, at))
  {
  }

  /** Each call in its turn, at the next of `times`, can be answered as the script says. */
  predicate AnswerableAll(s: System, t: nat, h: Handling, times: seq<Time>)
    decreases |times|
  {
    t in s.tasks && times != [] && !Settled(s.tasks[t].phase) && (s.tasks[t].phase.Sending? ==> h.completion.Some?) ==>
      && Answerable(s, s.tasks[t].phase, h, times[0])
      && var w := Call(s.tasks[t].phase, h, times[0]);
         WorkerEnabled(s, t, w) ==> AnswerableAll(WorkerNext(s, t, w), t, h, times[1..])
  }

  /** Such a script yields a run of the handler alone that settles its message. */
  lemma {:induction false} ScriptRuns(s: System, t: nat, h: Handling, times: seq<Time>) returns (steps: seq<Step>, s': System)
    requires Processed(h) && OnTrack(s, t, h) && AnswerableAll(s, t, h, times)
    requires Rank(s.tasks[t].phase) <= |times|
    ensures Leads(s, steps, s') && OnTrack(s', t, h) && Settled(s'.tasks[t].phase)
    decreases |times|
  {
    if Settled(s.tasks[t].phase) {
      steps, s' := [], s;
    } else {
      var w := Call(s.tasks[t].phase, h, times[0]);
      CallPlays(s, t, h, times[0]);
      OwnStep(s, t, h, w);
      var rest;
      rest, s' := ScriptRuns(WorkerNext(s, t, w), t, h, times[1..]);
      steps := [Worker(t, w)] + rest;
      LeadsVia(s, Worker(t, w), rest, s');
    }
  }
}
